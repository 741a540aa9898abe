/** Single-use log stream tickets and the sessions they open. */
module StreamHub {
  import opened Wrappers
  import opened Text
  import opened BoundedFifo

  const TICKET_CAPACITY: nat := 32
  const TICKET_MAX_AGE_REVISIONS: nat := 256
  const COUNTER_RANGE: nat := 0x1_0000_0000_0000_0000

  datatype LogStream = LogStream(context: string, namespace: string, pod: string, uid: string, container: string)

  datatype Pending = Pending(stream: LogStream, issuedAt: nat)

  /** A session, whether somebody still listens, and every line sent to it. */
  datatype Session = Session(stream: LogStream, ticks: nat, listening: bool, log: seq<string>)

  datatype Denied = Unknown | Expired

  datatype State = State(tickets: map<nat, Pending>, order: seq<nat>, sessions: map<nat, Session>, nextTicket: nat)

  const EMPTY := State(map[], [], map[], 1)

  /** The text a ticket goes by. */
  function TicketText(n: nat): string {
    "stream-ticket-" + Padded(n, 4)
  }

  lemma TicketTextInjective(a: nat, b: nat)
    ensures TicketText(a) == TicketText(b) <==> a == b
  {
    if TicketText(a) == TicketText(b) {
      CancelHead("stream-ticket-", Padded(a, 4), Padded(b, 4));
    }
  }

  function Line(stream: LogStream, what: string, n: nat): string {
    stream.pod + "/" + stream.container + what + Decimal(n)
  }

  function Issued(s: State, stream: LogStream, revision: nat): State {
    var id := s.nextTicket;
    var kept := Evicted(s.order + [id], s.tickets[id := Pending(stream, revision)], TICKET_CAPACITY);
    s.(order := kept.0, tickets := kept.1, nextTicket := (id + 1) % COUNTER_RANGE)
  }

  function Opened(stream: LogStream): Session {
    Session(stream, 0, true, [Line(stream, " backlog line ", 1), Line(stream, " backlog line ", 2)])
  }

  function Redeemed(s: State, id: nat, revision: nat): Result<State, Denied> {
    if id !in s.tickets then Err(Unknown)
    else if revision - s.tickets[id].issuedAt > TICKET_MAX_AGE_REVISIONS then Err(Expired)
    else Ok(s.(tickets := s.tickets - {id}, order := Without(s.order, id),
               sessions := s.sessions[id := Opened(s.tickets[id].stream)]))
  }

  function Pruned(s: State): State {
    s.(sessions := map id | id in s.sessions && s.sessions[id].listening :: s.sessions[id])
  }

  function Ticked(s: State, id: nat): State {
    var p := Pruned(s);
    if id !in p.sessions then p
    else
      var x := p.sessions[id];
      p.(sessions := p.sessions[id :=
        x.(ticks := x.ticks + 1, log := x.log + [Line(x.stream, " log tick ", x.ticks + 1)])])
  }

  // --- the object ---------------------------------------------------------------------------

  class Hub {
    var tickets: map<nat, Pending>
    var order: seq<nat>
    var sessions: map<nat, Session>
    var nextTicket: nat

    function Abs(): State
      reads this
    {
      State(tickets, order, sessions, nextTicket)
    }

    /** Every retained ticket is queued, which is what the eviction loop needs to end. */
    ghost predicate Valid()
      reads this
    {
      nextTicket < COUNTER_RANGE && |tickets| <= TICKET_CAPACITY && forall id :: id in tickets ==> id in order
    }

    constructor ()
      ensures Valid() && Abs() == EMPTY
    {
      tickets, order, sessions, nextTicket := map[], [], map[], 1;
    }

    method IssueTicket(stream: LogStream, issuedRevision: nat) returns (id: nat)
      requires Valid()
      modifies this
      ensures Valid() && Abs() == Issued(old(Abs()), stream, issuedRevision) && id == old(nextTicket)
    {
      hide Evicted;
      id := nextTicket;
      nextTicket := (nextTicket + 1) % COUNTER_RANGE;
      QueuedAppend(order, tickets, id, Pending(stream, issuedRevision));
      tickets := tickets[id := Pending(stream, issuedRevision)];
      order := order + [id];
      order, tickets := EvictOldest(order, tickets, TICKET_CAPACITY);
    }

    /** The caller passes a revision no older than any ticket: the age is an unsigned difference. */
    method Redeem(id: nat, currentRevision: nat) returns (result: Result<LogStream, Denied>)
      requires Valid() && (id in tickets ==> tickets[id].issuedAt <= currentRevision)
      modifies this
      ensures Valid()
      ensures match Redeemed(old(Abs()), id, currentRevision)
              case Ok(next) => Abs() == next && result == Ok(old(tickets)[id].stream)
              case Err(e) => Abs() == old(Abs()) && result == Err(e)
    {
      if id !in tickets { return Err(Unknown); }
      var pending := tickets[id];
      if currentRevision - pending.issuedAt > TICKET_MAX_AGE_REVISIONS { return Err(Expired); }
      assert (tickets - {id}).Keys == tickets.Keys - {id};
      tickets := tickets - {id};
      order := Without(order, id);
      var session := Session(pending.stream, 0, true, []);
      var index := 1;
      while index <= 2
        invariant 1 <= index <= 3
        invariant session == Opened(pending.stream).(log := Opened(pending.stream).log[..index - 1])
      {
        session := session.(log := session.log + [Line(pending.stream, " backlog line ", index)]);
        index := index + 1;
      }
      assert Opened(pending.stream).log[..2] == Opened(pending.stream).log;
      sessions := sessions[id := session];
      return Ok(pending.stream);
    }

    method Prune()
      requires Valid()
      modifies this`sessions
      ensures Valid() && Abs() == Pruned(old(Abs()))
    {
      sessions := map id | id in sessions && sessions[id].listening :: sessions[id];
    }

    method Tick(id: nat)
      requires Valid()
      modifies this`sessions
      ensures Valid() && Abs() == Ticked(old(Abs()), id)
    {
      Prune();
      if id !in sessions { return; }
      var session := sessions[id];
      var ticks := session.ticks + 1;
      sessions := sessions[id := session.(ticks := ticks, log := session.log + [Line(session.stream, " log tick ", ticks)])];
    }
  }

  // --- runs ---------------------------------------------------------------------------------

  datatype Step =
    | Advance(to: nat)                 // the store's revision moves on
    | Issue(stream: LogStream)
    | Redeem(id: nat)
    | Tick(id: nat)
    | HangUp(id: nat)                  // the last receiver of a session goes away

  /** The hub, the store's revision, and what has been issued and redeemed. */
  datatype Run = Run(hub: State, revision: nat, issued: nat, redeemed: seq<nat>)

  predicate Init(r: Run) { r == Run(EMPTY, r.revision, 0, []) }

  predicate Enabled(r: Run, step: Step) {
    match step
    case Advance(to) => r.revision <= to
    case HangUp(id) => id in r.hub.sessions
    case _ => true
  }

  function Exec(r: Run, step: Step): Run
    requires Enabled(r, step)
  {
    match step
    case Advance(to) => r.(revision := to)
    case Issue(stream) => r.(hub := Issued(r.hub, stream, r.revision), issued := r.issued + 1)
    case Redeem(id) =>
      (match Redeemed(r.hub, id, r.revision)
       case Err(_) => r
       case Ok(next) => r.(hub := next, redeemed := r.redeemed + [id]))
    case Tick(id) => r.(hub := Ticked(r.hub, id))
    case HangUp(id) => r.(hub := r.hub.(sessions := r.hub.sessions[id := r.hub.sessions[id].(listening := false)]))
  }

  ghost predicate IsRun(runs: seq<Run>, steps: seq<Step>) {
    && |runs| == |steps| + 1 && Init(runs[0])
    && forall i :: 0 <= i < |steps| ==> Enabled(runs[i], steps[i]) && runs[i + 1] == Exec(runs[i], steps[i])
  }

  /** Tickets are retained within the bound, queued in issue order. */
  ghost predicate TicketsOk(h: State, revision: nat) {
    && Retained(h.order, h.tickets, TICKET_CAPACITY) && Ascending(h.order)
    && forall id :: id in h.tickets ==> 1 <= id < h.nextTicket && h.tickets[id].issuedAt <= revision
  }

  /** What was redeemed is gone, was redeemed once, and is what sessions were opened for. */
  ghost predicate RedeemedOk(r: Run) {
    && NoDuplicates(r.redeemed)
    && (forall id :: id in r.redeemed ==> 1 <= id < r.hub.nextTicket && id !in r.hub.tickets)
    && (forall id :: id in r.hub.sessions ==> id in r.redeemed)
  }

  /** While the counter has not wrapped. */
  ghost predicate Inv(r: Run) {
    r.hub.nextTicket == r.issued + 1 && TicketsOk(r.hub, r.revision) && RedeemedOk(r)
  }

  lemma IssueTickets(h: State, stream: LogStream, revision: nat)
    requires TicketsOk(h, revision) && h.nextTicket >= 1 && h.nextTicket + 1 < COUNTER_RANGE
    ensures var after := Issued(h, stream, revision);
            && TicketsOk(after, revision) && after.nextTicket == h.nextTicket + 1
            && (forall id :: id in after.tickets ==> id == h.nextTicket || id in h.tickets)
  {
    InsertAscends(h.order, h.tickets, h.nextTicket, Pending(stream, revision), TICKET_CAPACITY);
    InsertMirrors(h.order, h.tickets, h.nextTicket, Pending(stream, revision), TICKET_CAPACITY);
  }

  lemma RedeemTickets(h: State, id: nat, revision: nat)
    requires TicketsOk(h, revision) && Redeemed(h, id, revision).Ok?
    ensures TicketsOk(Redeemed(h, id, revision).value, revision)
  {
    RemoveMirrors(h.order, h.tickets, id);
    WithoutAscending(h.order, id);
    assert (h.tickets - {id}).Keys == h.tickets.Keys - {id};
  }

  lemma IssueInv(r: Run, stream: LogStream)
    requires Inv(r) && r.issued + 2 < COUNTER_RANGE
    ensures Inv(Exec(r, Issue(stream)))
  {
    hide TicketsOk, Issued;
    IssueTickets(r.hub, stream, r.revision);
    IssueCounts(r.hub, stream, r.revision);
    IssueSessions(r.hub, stream, r.revision);
    assert forall id :: id in r.hub.tickets ==> id != r.hub.nextTicket by { TicketsBelow(r.hub, r.revision); }
  }

  lemma TicketsBelow(h: State, revision: nat)
    requires TicketsOk(h, revision)
    ensures forall id :: id in h.tickets ==> id < h.nextTicket
  {
  }

  lemma IssueSessions(h: State, stream: LogStream, revision: nat)
    ensures Issued(h, stream, revision).sessions == h.sessions
  {
  }

  lemma IssueCounts(h: State, stream: LogStream, revision: nat)
    ensures Issued(h, stream, revision).nextTicket == (h.nextTicket + 1) % COUNTER_RANGE
  {
  }

  lemma RedeemGrants(h: State, id: nat, revision: nat)
    requires Redeemed(h, id, revision).Ok?
    ensures var next := Redeemed(h, id, revision).value;
            && id in h.tickets && next.tickets == h.tickets - {id} && next.nextTicket == h.nextTicket
            && next.sessions.Keys == h.sessions.Keys + {id}
  {
    hide Opened, Without;
  }

  lemma RedeemInv(r: Run, id: nat)
    requires Inv(r)
    ensures Inv(Exec(r, Redeem(id)))
  {
    hide TicketsOk, Redeemed;
    if Redeemed(r.hub, id, r.revision).Ok? {
      RedeemTickets(r.hub, id, r.revision);
      RedeemGrants(r.hub, id, r.revision);
      RetainedIds(r.hub, r.revision, id);
    }
  }

  lemma RetainedIds(h: State, revision: nat, id: nat)
    requires TicketsOk(h, revision) && id in h.tickets
    ensures 1 <= id < h.nextTicket
  {
  }

  lemma OtherInv(r: Run, step: Step)
    requires Inv(r) && Enabled(r, step) && !step.Issue? && !step.Redeem?
    ensures Inv(Exec(r, step))
  {
    hide Line;
  }

  lemma StepInv(r: Run, step: Step)
    requires Inv(r) && Enabled(r, step) && Exec(r, step).issued + 1 < COUNTER_RANGE
    ensures Inv(Exec(r, step))
  {
    hide Inv;
    match step {
      case Issue(stream) => IssueInv(r, stream);
      case Redeem(id) => RedeemInv(r, id);
      case _ => OtherInv(r, step);
    }
  }

  lemma {:induction false} RunInv(runs: seq<Run>, steps: seq<Step>, i: nat)
    requires IsRun(runs, steps) && i < |runs| && runs[i].issued + 1 < COUNTER_RANGE
    ensures Inv(runs[i])
  {
    if i == 0 {
    } else {
      RunInv(runs, steps, i - 1);
      StepInv(runs[i - 1], steps[i - 1]);
    }
  }

  /** Before the counter wraps no ticket is redeemed twice, and none is younger than the revision it is aged by. */
  lemma NeverRedeemedTwice(runs: seq<Run>, steps: seq<Step>, i: nat)
    requires IsRun(runs, steps) && i < |runs| && runs[i].issued + 1 < COUNTER_RANGE
    ensures NoDuplicates(runs[i].redeemed)
    ensures forall id :: id in runs[i].redeemed ==> Redeemed(runs[i].hub, id, runs[i].revision) == Err(Unknown)
    ensures forall id :: id in runs[i].hub.tickets ==> runs[i].hub.tickets[id].issuedAt <= runs[i].revision
  {
    RunInv(runs, steps, i);
  }

  /** A new ticket pushes out the oldest retained one when the store is full, and nothing otherwise. */
  lemma EvictsOnlyOldest(h: State, stream: LogStream, revision: nat, id: nat)
    requires TicketsOk(h, revision) && h.nextTicket >= 1 && id in h.tickets
    ensures id !in Issued(h, stream, revision).tickets <==>
              |h.tickets| == TICKET_CAPACITY && forall other :: other in h.tickets ==> id <= other
  {
    InsertEvictsFront(h.order, h.tickets, h.nextTicket, Pending(stream, revision), TICKET_CAPACITY, id);
    FrontIsOldest(h.order, h.tickets, id);
  }

  /** Whatever the counter does, issuing keeps queue and store in step exactly when the next id is not retained. */
  lemma IssueKeepsMirrorIff(h: State, stream: LogStream, revision: nat)
    requires Retained(h.order, h.tickets, TICKET_CAPACITY)
    ensures var after := Issued(h, stream, revision);
            Retained(after.order, after.tickets, TICKET_CAPACITY) <==> h.nextTicket !in h.tickets
  {
    var id, value := h.nextTicket, Pending(stream, revision);
    if id in h.tickets {
      assert h.tickets[id := value].Keys == h.tickets.Keys;
      var i :| 0 <= i < |h.order| && h.order[i] == id;
      assert (h.order + [id])[i] == (h.order + [id])[|h.order|];
    } else {
      InsertMirrors(h.order, h.tickets, id, value, TICKET_CAPACITY);
    }
  }

  // --- the counter comes round --------------------------------------------------------------

  /** A hub whose only ticket is the first one ever issued, after `issued` issues. */
  ghost predicate FirstKept(r: Run, stream: LogStream, issued: nat) {
    && r.issued == issued && r.hub.nextTicket == (issued + 1) % COUNTER_RANGE
    && r.hub.order == [1] && r.hub.tickets == map[1 := Pending(stream, r.revision)]
  }

  lemma {:induction false} WithoutLast(order: seq<nat>, id: nat)
    requires id !in order
    ensures Without(order + [id], id) == order
  {
    if |order| == 0 {
      assert (order + [id])[1..] == [];
    } else {
      WithoutLast(order[1..], id);
      assert (order + [id])[1..] == order[1..] + [id];
      assert order == [order[0]] + order[1..];
    }
  }

  /** A ticket issued beside a retained one and redeemed at once leaves the store as it was. */
  lemma SecondLeaves(h: State, stream: LogStream, revision: nat)
    requires h.order == [1] && h.tickets.Keys == {1} && h.nextTicket != 1
    ensures var after := Issued(h, stream, revision);
            && h.nextTicket in after.tickets && after.tickets[h.nextTicket].issuedAt == revision
            && after.tickets - {h.nextTicket} == h.tickets && Without(after.order, h.nextTicket) == h.order
  {
    var id := h.nextTicket;
    InsertMirrors(h.order, h.tickets, id, Pending(stream, revision), TICKET_CAPACITY);
    assert |h.tickets.Keys| == 1;
    assert h.tickets[id := Pending(stream, revision)] - {id} == h.tickets;
    WithoutLast(h.order, id);
  }

  lemma IssueThenRedeem(r: Run, stream: LogStream, issued: nat)
    requires FirstKept(r, stream, issued) && (issued + 1) % COUNTER_RANGE != 1
    ensures FirstKept(Exec(Exec(r, Issue(stream)), Redeem(r.hub.nextTicket)), stream, issued + 1)
  {
    hide Issued, Without;
    SecondLeaves(r.hub, stream, r.revision);
    IssueCounts(r.hub, stream, r.revision);
    assert (issued + 1) % COUNTER_RANGE + 1 == (issued + 2) % COUNTER_RANGE || (issued + 2) % COUNTER_RANGE == 0;
  }

  lemma RunGrows(runs: seq<Run>, steps: seq<Step>, step: Step)
    requires IsRun(runs, steps) && Enabled(runs[|steps|], step)
    ensures IsRun(runs + [Exec(runs[|steps|], step)], steps + [step])
  {
    var longer, more := runs + [Exec(runs[|steps|], step)], steps + [step];
    forall i | 0 <= i < |more| ensures Enabled(longer[i], more[i]) && longer[i + 1] == Exec(longer[i], more[i]) {
      if i < |steps| {
        assert longer[i] == runs[i] && longer[i + 1] == runs[i + 1] && more[i] == steps[i];
      }
    }
  }

  const BEGINNING := Run(EMPTY, 0, 0, [])

  lemma FirstIssue(stream: LogStream)
    ensures FirstKept(Exec(BEGINNING, Issue(stream)), stream, 1)
    ensures IsRun([BEGINNING, Exec(BEGINNING, Issue(stream))], [Issue(stream)])
  {
  }

  /** Every later ticket is redeemed as soon as it is issued, and the first one never is. */
  lemma {:induction false} KeepFirst(stream: LogStream, issued: nat) returns (runs: seq<Run>, steps: seq<Step>)
    requires 1 <= issued <= COUNTER_RANGE
    ensures IsRun(runs, steps) && FirstKept(runs[|steps|], stream, issued)
  {
    hide Exec, IsRun, FirstKept;
    if issued == 1 {
      FirstIssue(stream);
      runs, steps := [BEGINNING, Exec(BEGINNING, Issue(stream))], [Issue(stream)];
    } else {
      runs, steps := KeepFirst(stream, issued - 1);
      runs, steps := IssueAndRedeem(runs, steps, stream, issued - 1);
    }
  }

  lemma IssueAndRedeem(runs: seq<Run>, steps: seq<Step>, stream: LogStream, issued: nat)
    returns (longer: seq<Run>, more: seq<Step>)
    requires IsRun(runs, steps) && FirstKept(runs[|steps|], stream, issued) && (issued + 1) % COUNTER_RANGE != 1
    ensures IsRun(longer, more) && FirstKept(longer[|more|], stream, issued + 1)
  {
    hide Exec, FirstKept;
    var r := runs[|steps|];
    IssueThenRedeem(r, stream, issued);
    RunGrows(runs, steps, Issue(stream));
    longer, more := runs + [Exec(r, Issue(stream))], steps + [Issue(stream)];
    var next := longer[|more|];
    RunGrows(longer, more, Redeem(r.hub.nextTicket));
    longer, more := longer + [Exec(next, Redeem(r.hub.nextTicket))], more + [Redeem(r.hub.nextTicket)];
  }

  /** So some run brings the counter round to a ticket still retained, where the next issue breaks the mirror. */
  lemma WrapBreaksMirror(stream: LogStream) returns (runs: seq<Run>, steps: seq<Step>)
    ensures IsRun(runs, steps)
    ensures var h := runs[|steps|].hub;
            var after := Issued(h, stream, 0);
            && Retained(h.order, h.tickets, TICKET_CAPACITY) && h.nextTicket in h.tickets
            && !Retained(after.order, after.tickets, TICKET_CAPACITY)
  {
    runs, steps := KeepFirst(stream, COUNTER_RANGE);
    var h := runs[|steps|].hub;
    assert h.tickets.Keys == {1};
    IssueKeepsMirrorIff(h, stream, 0);
  }
}
