/** The bounded outbound scheduler of one control session. */
module Outbound {
  import opened Wrappers

  datatype Priority = P0 | P1 | P2

  datatype EnqueueError = Overloaded | Coalesced

  datatype P2Identity = Resource(subscription: Option<string>, resource: string) | RecoveryBarrier

  datatype Entry<M> = Entry(priority: Priority, message: M, identity: Option<P2Identity>, sequence: Option<nat>)

  datatype Limits = Limits(capacity: nat, reserve: nat)

  datatype State<M> = State(queue: seq<Entry<M>>, closed: bool)

  /** What a build closure returns: the sequence it took and the frame made with it. */
  type Built<M> = Result<(nat, M), EnqueueError>

  datatype Received<M> = Item(message: M) | Closed | Wait

  function LimitsOf(capacity: nat, reserve: nat): Limits {
    var c := if capacity < 1 then 1 else capacity;
    Limits(c, if reserve < c then reserve else c)
  }

  // --- scanning the queue -------------------------------------------------------------------

  datatype Sought = Unsequenced(priority: Priority) | Identified(identity: P2Identity)

  predicate Is<M>(e: Entry<M>, sought: Sought) {
    match sought
    case Unsequenced(priority) => e.priority == priority && e.sequence.None?
    case Identified(identity) => e.identity == Some(identity)
  }

  /** The first entry that is what is sought. */
  function Position<M>(queue: seq<Entry<M>>, sought: Sought): (at: Option<nat>)
    ensures at.Some? ==> at.value < |queue| && Is(queue[at.value], sought)
    ensures at.Some? ==> forall i :: 0 <= i < at.value ==> !Is(queue[i], sought)
    ensures at.None? ==> forall i :: 0 <= i < |queue| ==> !Is(queue[i], sought)
  {
    if |queue| == 0 then None
    else if Is(queue[0], sought) then Some(0)
    else
      match Position(queue[1..], sought)
      case None => None
      case Some(i) => Some(i + 1)
  }

  /** The first entry with the least sequence. */
  function LeastSequence<M>(queue: seq<Entry<M>>): (at: Option<nat>)
    ensures at.None? <==> forall i :: 0 <= i < |queue| ==> queue[i].sequence.None?
    ensures at.Some? ==> at.value < |queue| && queue[at.value].sequence.Some?
    ensures at.Some? ==> forall i :: 0 <= i < |queue| && queue[i].sequence.Some? ==>
              queue[at.value].sequence.value <= queue[i].sequence.value
    ensures at.Some? ==> forall i :: 0 <= i < at.value && queue[i].sequence.Some? ==>
              queue[at.value].sequence.value < queue[i].sequence.value
  {
    if |queue| == 0 then None
    else
      match LeastSequence(queue[1..])
      case None => if queue[0].sequence.Some? then Some(0) else None
      case Some(i) =>
        if queue[0].sequence.Some? && queue[0].sequence.value <= queue[1..][i].sequence.value then Some(0)
        else Some(i + 1)
  }

  function CountResources<M>(queue: seq<Entry<M>>): (n: nat)
    ensures n <= |queue|
  {
    if |queue| == 0 then 0
    else CountResources(queue[..|queue| - 1]) + (if IsResource(queue[|queue| - 1]) then 1 else 0)
  }

  predicate IsResource<M>(e: Entry<M>) {
    e.identity.Some? && e.identity.value.Resource?
  }

  /** Which entry leaves next. */
  function Next<M>(queue: seq<Entry<M>>): (at: Option<nat>)
    ensures at.Some? ==> at.value < |queue|
    ensures at.None? <==> |queue| == 0
  {
    var urgent := Position(queue, Unsequenced(P0));
    var reliable := Position(queue, Unsequenced(P1));
    var sequenced := LeastSequence(queue);
    if urgent.Some? then urgent
    else if reliable.Some? then reliable
    else if sequenced.Some? then sequenced
    else if |queue| > 0 then Some(0)
    else None
  }

  // --- transitions --------------------------------------------------------------------------

  function RemoveAt<M>(queue: seq<Entry<M>>, i: nat): seq<Entry<M>>
    requires i < |queue|
  {
    queue[..i] + queue[i + 1..]
  }

  /** A reliable entry needs a free slot of an open queue before its frame is built. */
  function Append<M>(l: Limits, s: State<M>, priority: Priority, identity: Option<P2Identity>,
                     built: Result<(Option<nat>, M), EnqueueError>): Result<State<M>, EnqueueError>
  {
    if s.closed || |s.queue| == l.capacity then Err(Overloaded)
    else
      match built
      case Err(e) => Err(e)
      case Ok((sequence, message)) => Ok(s.(queue := s.queue + [Entry(priority, message, identity, sequence)]))
  }

  function Sequenced<M>(built: Built<M>): Result<(Option<nat>, M), EnqueueError> {
    match built
    case Err(e) => Err(e)
    case Ok((sequence, message)) => Ok((Some(sequence), message))
  }

  function Replace<M>(s: State<M>, i: nat, message: M): State<M>
    requires i < |s.queue|
  {
    s.(queue := s.queue[i := s.queue[i].(message := message)])
  }

  /** No slot for one more resource entry: the queue or the P2 partition is full. */
  predicate P2Full<M>(l: Limits, s: State<M>)
    requires l.reserve <= l.capacity
  {
    |s.queue| == l.capacity || CountResources(s.queue) >= l.capacity - l.reserve
  }

  /** Replace the queued entry of an unscoped resource, or queue it without a sequence. */
  function Latest<M>(l: Limits, s: State<M>, resource: string, message: M): Result<State<M>, EnqueueError>
    requires l.reserve <= l.capacity
  {
    var identity := Resource(None, resource);
    var at := Position(s.queue, Identified(identity));
    if s.closed then Err(Coalesced)
    else if at.Some? then Ok(Replace(s, at.value, message))
    else if P2Full(l, s) then Err(Coalesced)
    else Append(l, s, P2, Some(identity), Ok((None, message)))
  }

  /** Replace the queued entry of a subscription's resource under the sequence it has, or queue a new one. */
  function LatestSequenced<M>(l: Limits, s: State<M>, subscription: string, resource: string,
                              build: Option<nat> -> Built<M>): Result<State<M>, EnqueueError>
    requires l.reserve <= l.capacity
  {
    var identity := Resource(Some(subscription), resource);
    var at := Position(s.queue, Identified(identity));
    if s.closed then Err(Coalesced)
    else if at.Some? then
      match build(s.queue[at.value].sequence)
      case Err(e) => Err(e)
      case Ok((_, message)) => Ok(Replace(s, at.value, message))
    else if P2Full(l, s) then Err(Coalesced)
    else Append(l, s, P2, Some(identity), Sequenced(build(None)))
  }

  /** Queue the recovery barrier, or share the one already queued. */
  function Barrier<M>(l: Limits, s: State<M>, built: Built<M>): Result<State<M>, EnqueueError> {
    if s.closed then Err(Overloaded)
    else if Position(s.queue, Identified(RecoveryBarrier)).Some? then Ok(s)
    else Append(l, s, P2, Some(RecoveryBarrier), Sequenced(built))
  }

  function Take<M>(s: State<M>): State<M> {
    match Next(s.queue)
    case None => s
    case Some(i) => s.(queue := RemoveAt(s.queue, i))
  }

  /** Drop everything and leave one closing frame, even on a closed queue. */
  function OverloadClosed<M>(s: State<M>, message: M): State<M> {
    s.(queue := [Entry(P0, message, None, None)])
  }

  // --- what every transition keeps ----------------------------------------------------------

  /** Priorities, identities and sequences that belong together. */
  predicate EntryOk<M>(e: Entry<M>) {
    && (e.priority == P2 <==> e.identity.Some?)
    && (e.identity.Some? ==> (e.sequence.None? <==> e.identity.value.Resource? && e.identity.value.subscription.None?))
  }

  ghost predicate Distinct<M>(queue: seq<Entry<M>>) {
    forall i, j :: 0 <= i < j < |queue| && queue[i].identity.Some? ==> queue[i].identity != queue[j].identity
  }

  ghost predicate WellFormed<M>(l: Limits, s: State<M>) {
    && 1 <= l.capacity && l.reserve <= l.capacity
    && |s.queue| <= l.capacity
    && CountResources(s.queue) <= l.capacity - l.reserve
    && Distinct(s.queue)
    && (forall i :: 0 <= i < |s.queue| ==> EntryOk(s.queue[i]))
  }

  lemma AppendKeeps<M>(l: Limits, s: State<M>, priority: Priority, identity: Option<P2Identity>,
                       built: Result<(Option<nat>, M), EnqueueError>)
    requires WellFormed(l, s) && Append(l, s, priority, identity, built).Ok?
    requires EntryOk(Entry(priority, built.value.1, identity, built.value.0))
    requires identity.Some? ==> Position(s.queue, Identified(identity.value)).None?
    requires identity.Some? && identity.value.Resource? ==> !P2Full(l, s)
    ensures WellFormed(l, Append(l, s, priority, identity, built).value)
  {
    var e := Entry(priority, built.value.1, identity, built.value.0);
    assert (s.queue + [e])[..|s.queue|] == s.queue;
    assert identity.Some? ==> forall i :: 0 <= i < |s.queue| ==> !Is(s.queue[i], Identified(identity.value));
  }

  lemma {:induction false} CountReplaced<M>(queue: seq<Entry<M>>, i: nat, e: Entry<M>)
    requires i < |queue| && e.identity == queue[i].identity
    ensures CountResources(queue[i := e]) == CountResources(queue)
  {
    var n := |queue| - 1;
    if i < n {
      CountReplaced(queue[..n], i, e);
      assert queue[i := e][..n] == queue[..n][i := e];
    } else {
      assert queue[i := e][..n] == queue[..n];
    }
  }

  lemma ReplaceKeeps<M>(l: Limits, s: State<M>, i: nat, message: M)
    requires WellFormed(l, s) && i < |s.queue|
    ensures WellFormed(l, Replace(s, i, message))
  {
    CountReplaced(s.queue, i, s.queue[i].(message := message));
  }

  lemma {:induction false} CountRemoved<M>(queue: seq<Entry<M>>, i: nat)
    requires i < |queue|
    ensures CountResources(queue) == CountResources(RemoveAt(queue, i)) + (if IsResource(queue[i]) then 1 else 0)
  {
    var n := |queue| - 1;
    if i < n {
      CountRemoved(queue[..n], i);
      assert RemoveAt(queue, i)[..n - 1] == RemoveAt(queue[..n], i);
    } else {
      assert RemoveAt(queue, i) == queue[..n];
    }
  }

  lemma RemovedAt<M>(queue: seq<Entry<M>>, i: nat, j: nat)
    requires i < |queue| && j < |queue| - 1
    ensures RemoveAt(queue, i)[j] == queue[if j < i then j else j + 1]
  {
  }

  lemma DistinctRemoved<M>(queue: seq<Entry<M>>, i: nat)
    requires Distinct(queue) && i < |queue|
    ensures Distinct(RemoveAt(queue, i))
  {
    var rest := RemoveAt(queue, i);
    forall a, b | 0 <= a < b < |rest| && rest[a].identity.Some? ensures rest[a].identity != rest[b].identity {
      RemovedAt(queue, i, a);
      RemovedAt(queue, i, b);
    }
  }

  lemma TakeKeeps<M>(l: Limits, s: State<M>)
    requires WellFormed(l, s)
    ensures WellFormed(l, Take(s))
  {
    if Next(s.queue).Some? {
      var i := Next(s.queue).value;
      CountRemoved(s.queue, i);
      DistinctRemoved(s.queue, i);
      forall j | 0 <= j < |RemoveAt(s.queue, i)| ensures EntryOk(RemoveAt(s.queue, i)[j]) {
        RemovedAt(s.queue, i, j);
      }
    }
  }

  // --- the scheduler object -----------------------------------------------------------------

  /** A transition that succeeded happened, and one that failed left everything alone. */
  predicate Did<M(==)>(before: State<M>, after: State<M>, outcome: Result<State<M>, EnqueueError>,
                       result: Result<(), EnqueueError>)
  {
    if outcome.Ok? then result.Ok? && after == outcome.value
    else result == Err(outcome.error) && after == before
  }

  class Scheduler<M(==)> {
    const capacity: nat
    const reliableReserve: nat
    var queue: seq<Entry<M>>
    var closed: bool

    function Abs(): State<M>
      reads this
    {
      State(queue, closed)
    }

    function Bounds(): Limits { Limits(capacity, reliableReserve) }

    ghost predicate Valid()
      reads this
    {
      WellFormed(Bounds(), Abs())
    }

    constructor (capacity: nat, reliableReserve: nat)
      ensures Valid() && Abs() == State([], false) && Bounds() == LimitsOf(capacity, reliableReserve)
    {
      var c := if capacity < 1 then 1 else capacity;
      this.capacity := c;
      this.reliableReserve := if reliableReserve < c then reliableReserve else c;
      queue, closed := [], false;
    }

    method Enqueue(priority: Priority, message: M) returns (result: Result<(), EnqueueError>)
      requires Valid() && priority != P2
      modifies this
      ensures Valid() && Did(old(Abs()), Abs(), Append(Bounds(), old(Abs()), priority, None, Ok((None, message))), result)
    {
      if closed || |queue| == capacity { return Err(Overloaded); }
      AppendKeeps(Bounds(), Abs(), priority, None, Ok((None, message)));
      queue := queue + [Entry(priority, message, None, None)];
      return Ok(());
    }

    /** `enqueue_sequenced` at P1, `enqueue_p0_sequenced` at P0; `asked` says whether the build closure was called. */
    method EnqueueSequenced(priority: Priority, build: () -> Built<M>)
      returns (result: Result<(), EnqueueError>, ghost asked: bool)
      requires Valid() && priority != P2
      modifies this
      ensures Valid() && Did(old(Abs()), Abs(), Append(Bounds(), old(Abs()), priority, None, Sequenced(build())), result)
      ensures asked <==> !old(closed) && |old(queue)| < capacity
    {
      if closed || |queue| == capacity { return Err(Overloaded), false; }
      var built := build();
      asked := true;
      if built.Err? { return Err(built.error), true; }
      AppendKeeps(Bounds(), Abs(), priority, None, Sequenced(built));
      queue := queue + [Entry(priority, built.value.1, None, Some(built.value.0))];
      result := Ok(());
    }

    method EnqueueP2(resource: string, message: M) returns (result: Result<(), EnqueueError>)
      requires Valid()
      modifies this
      ensures Valid() && Did(old(Abs()), Abs(), Latest(Bounds(), old(Abs()), resource, message), result)
    {
      var identity := Resource(None, resource);
      if closed { return Err(Coalesced); }
      var at := Position(queue, Identified(identity));
      if at.Some? {
        ReplaceKeeps(Bounds(), Abs(), at.value, message);
        queue := queue[at.value := queue[at.value].(message := message)];
        return Ok(());
      }
      if |queue| == capacity || CountResources(queue) >= capacity - reliableReserve { return Err(Coalesced); }
      AppendKeeps(Bounds(), Abs(), P2, Some(identity), Ok((None, message)));
      queue := queue + [Entry(P2, message, Some(identity), None)];
      return Ok(());
    }

    method EnqueueP2Sequenced(subscription: string, resource: string, build: Option<nat> -> Built<M>)
      returns (result: Result<(), EnqueueError>)
      requires Valid()
      modifies this
      ensures Valid() && Did(old(Abs()), Abs(), LatestSequenced(Bounds(), old(Abs()), subscription, resource, build), result)
    {
      var identity := Resource(Some(subscription), resource);
      if closed { return Err(Coalesced); }
      var at := Position(queue, Identified(identity));
      if at.Some? {
        assert EntryOk(queue[at.value]);
        var queued := queue[at.value].sequence.value;   // a queued entry of this kind has its sequence
        var rebuilt := build(Some(queued));
        if rebuilt.Err? { return Err(rebuilt.error); }
        ReplaceKeeps(Bounds(), Abs(), at.value, rebuilt.value.1);
        queue := queue[at.value := queue[at.value].(message := rebuilt.value.1)];
        return Ok(());
      }
      if |queue| == capacity || CountResources(queue) >= capacity - reliableReserve { return Err(Coalesced); }
      var built := build(None);
      if built.Err? { return Err(built.error); }
      AppendKeeps(Bounds(), Abs(), P2, Some(identity), Sequenced(built));
      queue := queue + [Entry(P2, built.value.1, Some(identity), Some(built.value.0))];
      return Ok(());
    }

    method EnqueueP2Barrier(build: () -> Built<M>) returns (result: Result<(), EnqueueError>, ghost asked: bool)
      requires Valid()
      modifies this
      ensures Valid() && Did(old(Abs()), Abs(), Barrier(Bounds(), old(Abs()), build()), result)
      ensures asked <==>
              !old(closed) && Position(old(queue), Identified(RecoveryBarrier)).None? && |old(queue)| < capacity
    {
      if closed { return Err(Overloaded), false; }
      if Position(queue, Identified(RecoveryBarrier)).Some? { return Ok(()), false; }
      if |queue| == capacity { return Err(Overloaded), false; }
      var built := build();
      asked := true;
      if built.Err? { return Err(built.error), true; }
      ghost var next := Append(Bounds(), Abs(), P2, Some(RecoveryBarrier), Sequenced(built));
      AppendKeeps(Bounds(), Abs(), P2, Some(RecoveryBarrier), Sequenced(built));
      queue := queue + [Entry(P2, built.value.1, Some(RecoveryBarrier), Some(built.value.0))];
      assert Abs() == next.value;
      result := Ok(());
    }

    /** One pass of the receive loop under the lock. */
    method TryRecv() returns (received: Received<M>)
      requires Valid()
      modifies this
      ensures Valid() && Abs() == Take(old(Abs()))
      ensures match Next(old(queue))
              case Some(i) => received == Item(old(queue)[i].message)
              case None => received == if old(closed) then Closed else Wait
    {
      TakeKeeps(Bounds(), Abs());
      var at := Next(queue);
      if at.Some? {
        var entry := queue[at.value];
        queue := RemoveAt(queue, at.value);
        return Item(entry.message);
      }
      return if closed then Closed else Wait;
    }

    method Close()
      requires Valid()
      modifies this
      ensures Valid() && Abs() == old(Abs()).(closed := true)
    {
      closed := true;
    }

    method OverloadClose(message: M)
      requires Valid()
      modifies this
      ensures Valid() && Abs() == OverloadClosed(old(Abs()), message)
    {
      queue := [Entry(P0, message, None, None)];
      assert queue[..0] == [];
    }
  }
}
