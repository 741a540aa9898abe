/**
 * A scheduler and the connection's sequence counter over whole runs: the order in which sequenced frames
 * leave, first-in first-out of the rest, and what coalescing does to payloads.
 */
module OutboundRuns {
  import opened Wrappers
  import opened Outbound

  const MAX_SEQUENCE: nat := 0xFFFF_FFFF_FFFF_FFFF

  /** A frame carries the sequence it was built with. */
  datatype Frame<B> = Frame(sequence: Option<nat>, body: B)

  datatype Request<B> =
    | Plain(priority: Priority, body: B)
    | Reliable(priority: Priority, body: B)
    | Newest(resource: string, body: B)
    | NewestIn(subscription: string, resource: string, body: B)
    | Recovery(body: B)

  datatype Step<B> = Offer(request: Request<B>) | Receive | Close | Overload(body: B)

  /** The scheduler, its counter, and what has happened since the counter stood at `base`. */
  datatype Link<B> = Link(
    limits: Limits, state: State<Frame<B>>, base: nat, counter: nat,
    delivered: seq<Entry<Frame<B>>>, pushed: seq<Entry<Frame<B>>>, payloads: seq<(P2Identity, B)>, overloaded: bool)

  predicate Init<B>(k: Link<B>) {
    && k.limits == LimitsOf(k.limits.capacity, k.limits.reserve)
    && k.state == State([], false) && k.counter == k.base <= MAX_SEQUENCE
    && k.delivered == [] && k.pushed == [] && k.payloads == [] && !k.overloaded
  }

  function Allocate(counter: nat): Option<nat> {
    if counter >= MAX_SEQUENCE then None else Some(counter + 1)
  }

  /** The build closures of the control session: reuse a queued sequence, or allocate the next. */
  function Build<B>(counter: nat, body: B, queued: Option<nat>): Built<Frame<B>> {
    var sequence := if queued.Some? then queued else Allocate(counter);
    if sequence.None? then Err(Overloaded) else Ok((sequence.value, Frame(sequence, body)))
  }

  function Offered<B>(k: Link<B>, request: Request<B>): Result<State<Frame<B>>, EnqueueError>
    requires k.limits.reserve <= k.limits.capacity
  {
    match request
    case Plain(priority, body) => Append(k.limits, k.state, priority, None, Ok((None, Frame(None, body))))
    case Reliable(priority, body) =>
      Append(k.limits, k.state, priority, None, Sequenced(Build(k.counter, body, None)))
    case Newest(resource, body) => Latest(k.limits, k.state, resource, Frame(None, body))
    case NewestIn(subscription, resource, body) =>
      LatestSequenced(k.limits, k.state, subscription, resource, queued => Build(k.counter, body, queued))
    case Recovery(body) => Barrier(k.limits, k.state, Build(k.counter, body, None))
  }

  function IdentityOf<B>(request: Request<B>): Option<P2Identity> {
    match request
    case Newest(resource, _) => Some(Resource(None, resource))
    case NewestIn(subscription, resource, _) => Some(Resource(Some(subscription), resource))
    case Recovery(_) => Some(RecoveryBarrier)
    case _ => None
  }

  /** The entry a successful offer added, if it did not replace or share a queued one. */
  function Added<B>(before: State<Frame<B>>, after: State<Frame<B>>): Option<Entry<Frame<B>>> {
    if |after.queue| > |before.queue| then Some(after.queue[|before.queue|]) else None
  }

  function Enqueued<B>(k: Link<B>, request: Request<B>, next: State<Frame<B>>): Link<B> {
    var added := Added(k.state, next);
    var identity := IdentityOf(request);
    var shared := request.Recovery? && added.None?;
    k.(state := next,
       counter := if added.Some? && added.value.sequence.Some? then added.value.sequence.value else k.counter,
       pushed := if added.Some? then k.pushed + [added.value] else k.pushed,
       payloads := if identity.Some? && !shared then k.payloads + [(identity.value, request.body)] else k.payloads)
  }

  predicate Enabled<B>(k: Link<B>, step: Step<B>) {
    && k.limits.reserve <= k.limits.capacity
    && (step.Offer? && (step.request.Plain? || step.request.Reliable?) ==> step.request.priority != P2)
  }

  function Exec<B>(k: Link<B>, step: Step<B>): Link<B>
    requires Enabled(k, step)
  {
    match step
    case Offer(request) =>
      (match Offered(k, request)
       case Err(_) => k
       case Ok(next) => Enqueued(k, request, next))
    case Receive =>
      (match Next(k.state.queue)
       case None => k
       case Some(i) => k.(state := Take(k.state), delivered := k.delivered + [k.state.queue[i]]))
    case Close => k.(state := k.state.(closed := true))
    case Overload(body) => k.(state := OverloadClosed(k.state, Frame(None, body)), overloaded := true)
  }

  ghost predicate IsRun<B(!new)>(links: seq<Link<B>>, steps: seq<Step<B>>) {
    && |links| == |steps| + 1 && Init(links[0])
    && forall i :: 0 <= i < |steps| ==> Enabled(links[i], steps[i]) && links[i + 1] == Exec(links[i], steps[i])
  }

  // --- picking from a queue -----------------------------------------------------------------

  /** What `f` picks from a sequence of entries, in order. */
  function Pick<M, T>(entries: seq<Entry<M>>, f: Entry<M> -> Option<T>): seq<T> {
    if |entries| == 0 then []
    else if f(entries[0]).Some? then [f(entries[0]).value] + Pick(entries[1..], f)
    else Pick(entries[1..], f)
  }

  lemma {:induction false} PickConcat<M, T>(a: seq<Entry<M>>, b: seq<Entry<M>>, f: Entry<M> -> Option<T>)
    ensures Pick(a + b, f) == Pick(a, f) + Pick(b, f)
  {
    if |a| == 0 {
      assert a + b == b;
    } else {
      assert (a + b)[1..] == a[1..] + b;
      PickConcat(a[1..], b, f);
    }
  }

  function PickOne<M, T>(e: Entry<M>, f: Entry<M> -> Option<T>): seq<T> {
    if f(e).Some? then [f(e).value] else []
  }

  lemma PickAround<M, T>(q: seq<Entry<M>>, i: nat, f: Entry<M> -> Option<T>)
    requires i < |q|
    ensures Pick(q, f) == Pick(q[..i], f) + PickOne(q[i], f) + Pick(q[i + 1..], f)
  {
    assert q == q[..i] + q[i..];
    PickConcat(q[..i], q[i..], f);
    assert q[i..][1..] == q[i + 1..];
  }

  lemma {:induction false} PickNothing<M, T>(q: seq<Entry<M>>, f: Entry<M> -> Option<T>)
    requires forall i :: 0 <= i < |q| ==> f(q[i]).None?
    ensures Pick(q, f) == []
  {
    if |q| == 0 {
    } else {
      PickNothing(q[1..], f);
    }
  }

  lemma PickAppend<M, T>(q: seq<Entry<M>>, e: Entry<M>, f: Entry<M> -> Option<T>)
    ensures Pick(q + [e], f) == Pick(q, f) + PickOne(e, f)
  {
    PickConcat(q, [e], f);
    assert [e][1..] == [];
  }

  lemma Swap<T>(a: seq<T>, x: seq<T>, b: seq<T>)
    requires a == [] || x == []
    ensures x + (a + b) == a + x + b
  {
  }

  /** Taking an entry that is the first `f` picks, or that it does not pick, moves it in order. */
  lemma PickTaken<M, T>(q: seq<Entry<M>>, i: nat, f: Entry<M> -> Option<T>)
    requires i < |q| && (f(q[i]).Some? ==> forall j :: 0 <= j < i ==> f(q[j]).None?)
    ensures PickOne(q[i], f) + Pick(RemoveAt(q, i), f) == Pick(q, f)
  {
    var before, after := Pick(q[..i], f), Pick(q[i + 1..], f);
    assert Pick(q, f) == before + PickOne(q[i], f) + after by { PickAround(q, i, f); }
    assert Pick(RemoveAt(q, i), f) == before + after by { PickConcat(q[..i], q[i + 1..], f); }
    if f(q[i]).Some? {
      assert before == [] by { PickNothing(q[..i], f); }
    }
    Swap(before, PickOne(q[i], f), after);
  }

  lemma PickReplaced<M, T>(q: seq<Entry<M>>, i: nat, e: Entry<M>, f: Entry<M> -> Option<T>)
    requires i < |q| && f(e) == f(q[i])
    ensures Pick(q[i := e], f) == Pick(q, f)
  {
    PickAround(q, i, f);
    PickAround(q[i := e], i, f);
    assert q[i := e][..i] == q[..i] && q[i := e][i + 1..] == q[i + 1..];
  }

  // --- how a step changes the queue ---------------------------------------------------------

  /** An offer leaves the queue alone, appends one entry, or replaces the message of one. */
  lemma OfferShape<B>(k: Link<B>, request: Request<B>)
    requires WellFormed(k.limits, k.state) && Enabled(k, Offer(request)) && Offered(k, request).Ok?
    ensures var q, r := k.state.queue, Offered(k, request).value.queue;
            || (r == q && request.Recovery? && Position(q, Identified(RecoveryBarrier)).Some?)
            || (exists e :: r == q + [e] && EntryMade(k, request, e))
            || (IdentityOf(request).Some? && !request.Recovery?
                && var at := Position(q, Identified(IdentityOf(request).value));
                   at.Some? && r == q[at.value := q[at.value].(message := Frame(q[at.value].sequence, request.body))])
  {
    var q, r := k.state.queue, Offered(k, request).value.queue;
    if |r| > |q| {
      assert r == q + [r[|q|]] && EntryMade(k, request, r[|q|]);
    }
    var identity := IdentityOf(request);
    if identity.Some? {
      var at := Position(q, Identified(identity.value));
      assert at.Some? ==> EntryOk(q[at.value]);
    }
  }

  /** The entry an offer makes: the request's body, under the next sequence when it takes one. */
  ghost predicate EntryMade<B>(k: Link<B>, request: Request<B>, e: Entry<Frame<B>>) {
    && EntryOk(e) && e.identity == IdentityOf(request)
    && e.message == Frame(e.sequence, request.body)
    && (e.identity.Some? ==> Position(k.state.queue, Identified(e.identity.value)).None?)
    && e.sequence == (if request.Plain? || request.Newest? then None else Some(k.counter + 1))
    && (e.sequence.Some? ==> k.counter < MAX_SEQUENCE)
    && (request.Plain? || request.Reliable? ==> e.priority == request.priority)
  }
}
