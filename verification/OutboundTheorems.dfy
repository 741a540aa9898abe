/** What the outbound scheduler promises over every run. */
module OutboundTheorems {
  import opened Wrappers
  import opened Outbound
  import opened OutboundRuns

  // --- which entry leaves -------------------------------------------------------------------

  /** Unsequenced P0, then unsequenced P1, then sequenced by sequence, then the rest. */
  function Rank<M>(e: Entry<M>): (int, int) {
    if e.sequence.Some? then (2, e.sequence.value)
    else match e.priority
         case P0 => (0, 0)
         case P1 => (1, 0)
         case P2 => (3, 0)
  }

  predicate Before(a: (int, int), b: (int, int)) {
    a.0 < b.0 || (a.0 == b.0 && a.1 < b.1)
  }

  /** The entry that leaves has the least rank, and is the oldest of its rank. */
  lemma SelectsLeast<M>(q: seq<Entry<M>>, j: nat)
    requires j < |q|
    ensures Next(q).Some?
    ensures var i := Next(q).value;
            Before(Rank(q[i]), Rank(q[j])) || (Rank(q[i]) == Rank(q[j]) && i <= j)
  {
    assert Position(q, Unsequenced(P0)).None? ==> !Is(q[j], Unsequenced(P0));
    assert Position(q, Unsequenced(P1)).None? ==> !Is(q[j], Unsequenced(P1));
    assert Position(q, Unsequenced(P0)).None? ==> !Is(q[0], Unsequenced(P0));
    assert Position(q, Unsequenced(P1)).None? ==> !Is(q[0], Unsequenced(P1));
  }

  // --- the ways of looking at a queue -------------------------------------------------------

  function NumberOf<M>(): Entry<M> -> Option<nat> {
    (e: Entry<M>) => e.sequence
  }

  /** The unsequenced entries of one priority. */
  function LaneOf<M>(priority: Priority): Entry<M> -> Option<Entry<M>> {
    (e: Entry<M>) => if Is(e, Unsequenced(priority)) then Some(e) else None
  }

  function Numbers<M>(q: seq<Entry<M>>): seq<nat> { Pick(q, NumberOf()) }

  function Lane<M>(q: seq<Entry<M>>, priority: Priority): seq<Entry<M>> { Pick(q, LaneOf(priority)) }

  predicate Increasing(s: seq<nat>) {
    forall a, b :: 0 <= a < b < |s| ==> s[a] < s[b]
  }

  /** Exactly the numbers after `base` up to `top`, in order. */
  predicate IsRange(s: seq<nat>, base: nat, top: nat) {
    base + |s| == top && forall a :: 0 <= a < |s| ==> s[a] == base + 1 + a
  }

  lemma NumbersByPosition<M>(q: seq<Entry<M>>, j: nat, i: nat)
    requires Increasing(Numbers(q)) && j < i < |q| && q[j].sequence.Some? && q[i].sequence.Some?
    ensures q[j].sequence.value < q[i].sequence.value
  {
    PickAround(q, i, NumberOf());
    PickAround(q[..i], j, NumberOf());
    var before, earlier := Numbers(q[..i]), Numbers(q[..i][..j]);
    assert Numbers(q)[|before|] == q[i].sequence.value;
    assert before == earlier + [q[j].sequence.value] + Numbers(q[..i][j + 1..]);
    assert Numbers(q)[|earlier|] == before[|earlier|] == q[j].sequence.value;
  }

  /** Whatever leaves is the oldest of its lane, and the first sequenced one if it is sequenced. */
  lemma NextIsFirst<M>(q: seq<Entry<M>>, j: nat)
    requires Increasing(Numbers(q)) && Next(q).Some? && j < Next(q).value
    ensures var i := Next(q).value;
            && (q[i].sequence.Some? ==> q[j].sequence.None?)
            && (forall p :: p != P2 && Is(q[i], Unsequenced(p)) ==> !Is(q[j], Unsequenced(p)))
  {
    var i := Next(q).value;
    SelectsLeast(q, j);
    if q[i].sequence.Some? && q[j].sequence.Some? {
      NumbersByPosition(q, j, i);
    }
  }

  // --- sequences ----------------------------------------------------------------------------

  ghost predicate Numbered<B>(k: Link<B>) {
    var all := Numbers(k.delivered) + Numbers(k.state.queue);
    && k.base <= k.counter <= MAX_SEQUENCE
    && Increasing(all)
    && (forall n :: n in all ==> k.base < n <= k.counter)
    && (!k.overloaded ==> IsRange(all, k.base, k.counter))
  }

  ghost predicate FramesMatch<B>(entries: seq<Entry<Frame<B>>>) {
    forall e :: e in entries ==> e.message.sequence == e.sequence
  }

  /** The next sequence goes after all others. */
  lemma NumberedNext<B>(k: Link<B>, sequence: Option<nat>)
    requires Numbered(k) && (sequence.Some? ==> sequence.value == k.counter + 1)
    ensures var all := Numbers(k.delivered) + Numbers(k.state.queue);
            var more := all + (if sequence.Some? then [sequence.value] else []);
            var top := if sequence.Some? then k.counter + 1 else k.counter;
            && Increasing(more) && (forall n :: n in more ==> k.base < n <= top)
            && (!k.overloaded ==> IsRange(more, k.base, top))
  {
    var all := Numbers(k.delivered) + Numbers(k.state.queue);
    assert forall a :: 0 <= a < |all| ==> all[a] in all;
  }

  lemma NumberedOffer<B>(k: Link<B>, request: Request<B>)
    requires WellFormed(k.limits, k.state) && Numbered(k) && Enabled(k, Offer(request))
    ensures Numbered(Exec(k, Offer(request)))
  {
    if Offered(k, request).Ok? {
      OfferShape(k, request);
      var q, r := k.state.queue, Offered(k, request).value.queue;
      if |r| > |q| {
        assert r == q + [r[|q|]];
        PickAppend(q, r[|q|], NumberOf());
        Regroup(Numbers(k.delivered), Numbers(q), PickOne(r[|q|], NumberOf()));
        NumberedNext(k, r[|q|].sequence);
      } else if r != q {
        var at := Position(q, Identified(IdentityOf(request).value));
        PickReplaced(q, at.value, r[at.value], NumberOf());
      }
    }
  }

  lemma NumberedReceive<B>(k: Link<B>)
    requires Numbered(k) && Enabled(k, Receive)
    ensures Numbered(Exec(k, Receive))
  {
    var q := k.state.queue;
    if Next(q).Some? {
      var i := Next(q).value;
      TailIncreasing(Numbers(k.delivered), Numbers(q));
      forall j | 0 <= j < i ensures q[i].sequence.Some? ==> q[j].sequence.None? {
        NextIsFirst(q, j);
      }
      PickTaken(q, i, NumberOf());
      PickAppend(k.delivered, q[i], NumberOf());
      Regroup(Numbers(k.delivered), PickOne(q[i], NumberOf()), Numbers(RemoveAt(q, i)));
    }
  }

  lemma TailIncreasing(a: seq<nat>, b: seq<nat>)
    requires Increasing(a + b)
    ensures Increasing(b)
  {
    forall i, j | 0 <= i < j < |b| ensures b[i] < b[j] {
      assert (a + b)[|a| + i] == b[i] && (a + b)[|a| + j] == b[j];
    }
  }

  lemma Regroup<T>(a: seq<T>, b: seq<T>, c: seq<T>)
    ensures (a + b) + c == a + (b + c)
  {
  }

  lemma NumberedOverload<B>(k: Link<B>, body: B)
    requires Numbered(k) && Enabled(k, Overload(body))
    ensures Numbered(Exec(k, Overload(body)))
  {
    var r := Exec(k, Overload(body));
    var all := Numbers(k.delivered) + Numbers(k.state.queue);
    PickNothing(r.state.queue, NumberOf());
    assert Numbers(k.delivered) + [] == all[..|Numbers(k.delivered)|];
    assert forall n :: n in Numbers(k.delivered) + [] ==> n in all;
  }

  // --- lanes and conservation ---------------------------------------------------------------

  ghost predicate Conserved<B>(k: Link<B>) {
    !k.overloaded ==>
      && |k.delivered| + |k.state.queue| == |k.pushed|
      && (forall p :: p != P2 ==> Lane(k.delivered, p) + Lane(k.state.queue, p) == Lane(k.pushed, p))
  }

  lemma ConservedOffer<B>(k: Link<B>, request: Request<B>)
    requires WellFormed(k.limits, k.state) && Conserved(k) && Enabled(k, Offer(request))
    ensures Conserved(Exec(k, Offer(request)))
  {
    if Offered(k, request).Ok? && !k.overloaded {
      OfferShape(k, request);
      var q, r := k.state.queue, Offered(k, request).value.queue;
      forall p | p != P2 ensures Lane(k.delivered, p) + Lane(r, p) == Lane(Exec(k, Offer(request)).pushed, p) {
        if |r| > |q| {
          assert r == q + [r[|q|]];
          PickAppend(q, r[|q|], LaneOf(p));
          PickAppend(k.pushed, r[|q|], LaneOf(p));
        } else if r != q {
          var at := Position(q, Identified(IdentityOf(request).value));
          assert EntryOk(q[at.value]);
          PickReplaced(q, at.value, r[at.value], LaneOf(p));
        }
      }
    }
  }

  lemma ConservedReceive<B>(k: Link<B>)
    requires Conserved(k) && Numbered(k) && Enabled(k, Receive)
    ensures Conserved(Exec(k, Receive))
  {
    var q := k.state.queue;
    if Next(q).Some? && !k.overloaded {
      var i := Next(q).value;
      TailIncreasing(Numbers(k.delivered), Numbers(q));
      forall p | p != P2
        ensures Lane(k.delivered + [q[i]], p) + Lane(RemoveAt(q, i), p) == Lane(k.pushed, p)
      {
        forall j | 0 <= j < i ensures Is(q[i], Unsequenced(p)) ==> !Is(q[j], Unsequenced(p)) {
          NextIsFirst(q, j);
        }
        PickTaken(q, i, LaneOf(p));
        PickAppend(k.delivered, q[i], LaneOf(p));
        Regroup(Lane(k.delivered, p), PickOne(q[i], LaneOf(p)), Lane(RemoveAt(q, i), p));
      }
    }
  }

  // --- coalescing ---------------------------------------------------------------------------

  /** The newest payload admitted for an identity. */
  function NewestPayload<B>(payloads: seq<(P2Identity, B)>, id: P2Identity): Option<B> {
    if |payloads| == 0 then None
    else if payloads[|payloads| - 1].0 == id then Some(payloads[|payloads| - 1].1)
    else NewestPayload(payloads[..|payloads| - 1], id)
  }

  /** The newest payload a receiver has been given for an identity. */
  function NewestDelivered<B>(delivered: seq<Entry<Frame<B>>>, id: P2Identity): Option<B> {
    if |delivered| == 0 then None
    else
      var last := delivered[|delivered| - 1];
      if last.identity == Some(id) then Some(last.message.body)
      else NewestDelivered(delivered[..|delivered| - 1], id)
  }

  /** What a receiver will hold once the queue is empty: the queued payload, or the last delivered one. */
  function Outlook<B>(k: Link<B>, id: P2Identity): Option<B> {
    var at := Position(k.state.queue, Identified(id));
    if at.Some? then Some(k.state.queue[at.value].message.body) else NewestDelivered(k.delivered, id)
  }

  ghost predicate Current<B>(k: Link<B>) {
    !k.overloaded ==> forall id :: NewestPayload(k.payloads, id) == Outlook(k, id)
  }

  /** With distinct identities, wherever an identity is queued is where it is found. */
  lemma FoundWhere<M>(q: seq<Entry<M>>, id: P2Identity, j: nat)
    requires Distinct(q) && j < |q| && q[j].identity == Some(id)
    ensures Position(q, Identified(id)) == Some(j)
  {
    assert Is(q[j], Identified(id));
    var i := Position(q, Identified(id)).value;
    assert Is(q[i], Identified(id));
  }

  lemma NotFound<M>(q: seq<Entry<M>>, id: P2Identity)
    requires forall j :: 0 <= j < |q| ==> q[j].identity != Some(id)
    ensures Position(q, Identified(id)).None?
  {
  }

  lemma NotQueued<M>(q: seq<Entry<M>>, id: P2Identity, j: nat)
    requires Position(q, Identified(id)).None? && j < |q|
    ensures q[j].identity != Some(id)
  {
    assert !Is(q[j], Identified(id));
  }

  /** Where an identity is found once an entry has come. */
  lemma FoundAppended<M>(q: seq<Entry<M>>, e: Entry<M>, id: P2Identity)
    requires Distinct(q + [e])
    ensures Position(q + [e], Identified(id)) ==
            if e.identity == Some(id) then Some(|q|) else Position(q, Identified(id))
  {
    var r := q + [e];
    var was := Position(q, Identified(id));
    if e.identity == Some(id) {
      assert r[|q|] == e;
      FoundWhere(r, id, |q|);
    } else if was.Some? {
      assert r[was.value] == q[was.value];
      FoundWhere(r, id, was.value);
    } else {
      forall j | 0 <= j < |r| ensures r[j].identity != Some(id) {
        if j < |q| { NotQueued(q, id, j); }
      }
      NotFound(r, id);
    }
  }

  /** A replaced message moves no identity. */
  lemma FoundReplaced<M>(q: seq<Entry<M>>, at: nat, message: M, id: P2Identity)
    requires at < |q| && Distinct(q) && Distinct(q[at := q[at].(message := message)])
    ensures Position(q[at := q[at].(message := message)], Identified(id)) == Position(q, Identified(id))
  {
    var r := q[at := q[at].(message := message)];
    var was := Position(q, Identified(id));
    if was.Some? {
      assert r[was.value].identity == q[was.value].identity;
      FoundWhere(r, id, was.value);
    } else {
      forall j | 0 <= j < |r| ensures r[j].identity != Some(id) {
        NotQueued(q, id, j);
      }
      NotFound(r, id);
    }
  }

  /** An entry of an offer's own identity shows its body; others are as before. */
  lemma OutlookAppended<B>(k: Link<B>, x: Link<B>, e: Entry<Frame<B>>, id: P2Identity)
    requires Distinct(x.state.queue) && x.state.queue == k.state.queue + [e] && x.delivered == k.delivered
    ensures Outlook(x, id) == if e.identity == Some(id) then Some(e.message.body) else Outlook(k, id)
  {
    FoundAppended(k.state.queue, e, id);
  }

  lemma OutlookReplaced<B>(k: Link<B>, x: Link<B>, at: nat, message: Frame<B>, id: P2Identity)
    requires at < |k.state.queue| && Distinct(k.state.queue) && Distinct(x.state.queue)
    requires x.state.queue == k.state.queue[at := k.state.queue[at].(message := message)] && x.delivered == k.delivered
    ensures Outlook(x, id) == if k.state.queue[at].identity == Some(id) then Some(message.body) else Outlook(k, id)
  {
    FoundReplaced(k.state.queue, at, message, id);
    if k.state.queue[at].identity == Some(id) {
      FoundWhere(k.state.queue, id, at);
    }
  }

  lemma NewestAppended<B>(payloads: seq<(P2Identity, B)>, own: P2Identity, body: B, id: P2Identity)
    ensures NewestPayload(payloads + [(own, body)], id) == if own == id then Some(body) else NewestPayload(payloads, id)
  {
    assert (payloads + [(own, body)])[..|payloads|] == payloads;
  }

  lemma NewestOffer<B>(k: Link<B>, request: Request<B>, id: P2Identity)
    requires WellFormed(k.limits, k.state) && Current(k) && Enabled(k, Offer(request)) && !k.overloaded
    requires Offered(k, request).Ok? && WellFormed(k.limits, Offered(k, request).value)
    ensures NewestPayload(Exec(k, Offer(request)).payloads, id) == Outlook(Exec(k, Offer(request)), id)
  {
    OfferShape(k, request);
    var x := Exec(k, Offer(request));
    var q, r := k.state.queue, x.state.queue;
    assert NewestPayload(k.payloads, id) == Outlook(k, id);
    if IdentityOf(request).Some? {
      NewestAppended(k.payloads, IdentityOf(request).value, request.body, id);
    }
    if |r| > |q| {
      assert r == q + [r[|q|]];
      OutlookAppended(k, x, r[|q|], id);
    } else if !request.Recovery? {
      var at := Position(q, Identified(IdentityOf(request).value)).value;
      OutlookReplaced(k, x, at, r[at].message, id);
    }
  }

  /** Where an identity is found once an entry has left. */
  lemma FoundAfter<M>(q: seq<Entry<M>>, i: nat, id: P2Identity)
    requires i < |q| && Distinct(q) && Distinct(RemoveAt(q, i))
    ensures var r, was, now := RemoveAt(q, i), Position(q, Identified(id)), Position(RemoveAt(q, i), Identified(id));
            if q[i].identity == Some(id) then was == Some(i) && now.None?
            else if was.Some? then now.Some? && r[now.value] == q[was.value]
            else now.None?
  {
    var r := RemoveAt(q, i);
    var was := Position(q, Identified(id));
    if q[i].identity == Some(id) {
      FoundWhere(q, id, i);
      forall j | 0 <= j < |r| ensures r[j].identity != Some(id) {
        RemovedAt(q, i, j);
      }
      NotFound(r, id);
    } else if was.Some? {
      var at := if was.value < i then was.value else was.value - 1;
      RemovedAt(q, i, at);
      FoundWhere(r, id, at);
    } else {
      forall j | 0 <= j < |r| ensures r[j].identity != Some(id) {
        RemovedAt(q, i, j);
        NotQueued(q, id, if j < i then j else j + 1);
      }
      NotFound(r, id);
    }
  }

  lemma NewestReceive<B>(k: Link<B>, id: P2Identity)
    requires WellFormed(k.limits, k.state) && Current(k) && Enabled(k, Receive) && !k.overloaded
    requires WellFormed(k.limits, Take(k.state))
    ensures NewestPayload(Exec(k, Receive).payloads, id) == Outlook(Exec(k, Receive), id)
  {
    var q := k.state.queue;
    assert NewestPayload(k.payloads, id) == Outlook(k, id);
    if Next(q).Some? {
      FoundAfter(q, Next(q).value, id);
      assert (k.delivered + [q[Next(q).value]])[..|k.delivered|] == k.delivered;
    }
  }

  // --- every run ----------------------------------------------------------------------------

  ghost predicate Inv<B(!new)>(k: Link<B>) {
    WellFormed(k.limits, k.state) && Numbered(k) && Conserved(k) && Current(k)
    && FramesMatch(k.state.queue) && FramesMatch(k.delivered)
  }

  /** Every transition of the scheduler keeps its bounds, identities and sequences in order. */
  lemma StepWellFormed<B>(k: Link<B>, step: Step<B>)
    requires WellFormed(k.limits, k.state) && Enabled(k, step)
    ensures WellFormed(k.limits, Exec(k, step).state)
  {
    match step {
      case Offer(request) =>
        if Offered(k, request).Ok? {
          OfferWellFormed(k, request);
        }
      case Receive => TakeKeeps(k.limits, k.state);
      case Close =>
      case Overload(body) => assert Exec(k, step).state.queue[..0] == [];
    }
  }

  lemma OfferWellFormed<B>(k: Link<B>, request: Request<B>)
    requires WellFormed(k.limits, k.state) && Enabled(k, Offer(request)) && Offered(k, request).Ok?
    ensures WellFormed(k.limits, Offered(k, request).value)
  {
    var l, s := k.limits, k.state;
    match request {
      case Plain(priority, body) => AppendKeeps(l, s, priority, None, Ok((None, Frame(None, body))));
      case Reliable(priority, body) =>
        AppendKeeps(l, s, priority, None, Sequenced(Build(k.counter, body, None)));
      case Newest(resource, body) =>
        var at := Position(s.queue, Identified(Resource(None, resource)));
        if at.Some? { ReplaceKeeps(l, s, at.value, Frame(None, body)); }
        else { AppendKeeps(l, s, P2, Some(Resource(None, resource)), Ok((None, Frame(None, body)))); }
      case NewestIn(subscription, resource, body) =>
        var id := Resource(Some(subscription), resource);
        var at := Position(s.queue, Identified(id));
        if at.Some? { ReplaceKeeps(l, s, at.value, Build(k.counter, body, s.queue[at.value].sequence).value.1); }
        else { AppendKeeps(l, s, P2, Some(id), Sequenced(Build(k.counter, body, None))); }
      case Recovery(body) =>
        if Position(s.queue, Identified(RecoveryBarrier)).None? {
          AppendKeeps(l, s, P2, Some(RecoveryBarrier), Sequenced(Build(k.counter, body, None)));
        }
    }
  }

  lemma StepFrames<B>(k: Link<B>, step: Step<B>)
    requires WellFormed(k.limits, k.state) && Enabled(k, step)
    requires FramesMatch(k.state.queue) && FramesMatch(k.delivered)
    ensures FramesMatch(Exec(k, step).state.queue) && FramesMatch(Exec(k, step).delivered)
  {
    if step.Offer? && Offered(k, step.request).Ok? {
      OfferShape(k, step.request);
    }
  }

  lemma StepInv<B(!new)>(k: Link<B>, step: Step<B>)
    requires Inv(k) && Enabled(k, step)
    ensures Inv(Exec(k, step))
  {
    StepWellFormed(k, step);
    StepFrames(k, step);
    match step {
      case Offer(request) =>
        NumberedOffer(k, request);
        ConservedOffer(k, request);
        if Offered(k, request).Ok? && !k.overloaded {
          forall id { NewestOffer(k, request, id); }
        }
      case Receive =>
        NumberedReceive(k);
        ConservedReceive(k);
        if !k.overloaded {
          forall id { NewestReceive(k, id); }
        }
      case Close =>
        assert Outlook(k, RecoveryBarrier) == Outlook(Exec(k, step), RecoveryBarrier);
      case Overload(body) => NumberedOverload(k, body);
    }
  }

  lemma {:induction false} RunInv<B(!new)>(links: seq<Link<B>>, steps: seq<Step<B>>, i: nat)
    requires IsRun(links, steps) && i < |links|
    ensures Inv(links[i])
  {
    if i == 0 {
    } else {
      RunInv(links, steps, i - 1);
      StepInv(links[i - 1], steps[i - 1]);
    }
  }

  /**
   * Sequenced frames leave in strictly increasing order on every run; until an overload close, what has
   * left and what is queued are together exactly the sequences allocated, in order and without a hole.
   */
  lemma SequenceOrder<B(!new)>(links: seq<Link<B>>, steps: seq<Step<B>>, i: nat)
    requires IsRun(links, steps) && i < |links|
    ensures var k := links[i];
            && Increasing(Numbers(k.delivered))
            && (forall e :: e in k.delivered ==> e.message.sequence == e.sequence)
            && (!k.overloaded ==> IsRange(Numbers(k.delivered) + Numbers(k.state.queue), k.base, k.counter))
  {
    RunInv(links, steps, i);
    var k := links[i];
    var all := Numbers(k.delivered) + Numbers(k.state.queue);
    assert Numbers(k.delivered) == all[..|Numbers(k.delivered)|];
  }

  /** Until an overload close nothing is lost, and the unsequenced P0 and P1 entries leave first in, first out. */
  lemma FirstInFirstOut<B(!new)>(links: seq<Link<B>>, steps: seq<Step<B>>, i: nat, p: Priority)
    requires IsRun(links, steps) && i < |links| && !links[i].overloaded && p != P2
    ensures var k := links[i];
            && |k.delivered| + |k.state.queue| == |k.pushed|
            && Lane(k.delivered, p) <= Lane(k.pushed, p)
            && Lane(k.pushed, p)[|Lane(k.delivered, p)|..] == Lane(k.state.queue, p)
  {
    RunInv(links, steps, i);
    var k := links[i];
    assert Lane(k.pushed, p) == Lane(k.delivered, p) + Lane(k.state.queue, p);
  }

  ghost predicate Drained<B(!new)>(links: seq<Link<B>>, steps: seq<Step<B>>, i: nat, n: nat) {
    IsRun(links, steps) && i + n < |links| && forall j :: i <= j < i + n ==> steps[j] == Receive
  }

  lemma {:induction false} DrainShrinks<B(!new)>(links: seq<Link<B>>, steps: seq<Step<B>>, i: nat, n: nat)
    requires Drained(links, steps, i, n) && n <= |links[i].state.queue|
    ensures |links[i + n].state.queue| == |links[i].state.queue| - n
    ensures links[i + n].payloads == links[i].payloads && links[i + n].overloaded == links[i].overloaded
  {
    if n == 0 {
    } else {
      DrainShrinks(links, steps, i, n - 1);
      assert links[i + n] == Exec(links[i + n - 1], Receive);
    }
  }

  lemma EmptyOutlook<B(!new)>(k: Link<B>, id: P2Identity)
    requires Inv(k) && k.state.queue == [] && !k.overloaded
    ensures NewestDelivered(k.delivered, id) == NewestPayload(k.payloads, id)
  {
    assert Outlook(k, id) == NewestPayload(k.payloads, id);
  }

  /**
   * Coalescing preserves meaning: from any state of any run without an overload close, exactly as many
   * receives as there are queued entries empty the queue and leave a receiver with the newest admitted
   * payload of every identity, as if each payload had been delivered.
   */
  lemma DrainDeliversNewest<B(!new)>(links: seq<Link<B>>, steps: seq<Step<B>>, i: nat, id: P2Identity)
    requires i < |links| && Drained(links, steps, i, |links[i].state.queue|) && !links[i].overloaded
    ensures var n := |links[i].state.queue|;
            && links[i + n].state.queue == []
            && NewestDelivered(links[i + n].delivered, id) == NewestPayload(links[i].payloads, id)
            && (forall m :: i <= m < i + n ==> links[m].state.queue != [])
  {
    hide Inv, Exec;
    var n := |links[i].state.queue|;
    DrainShrinks(links, steps, i, n);
    RunInv(links, steps, i + n);
    EmptyOutlook(links[i + n], id);
    forall m | i <= m < i + n ensures links[m].state.queue != [] {
      DrainShrinks(links, steps, i, m - i);
    }
  }
}
