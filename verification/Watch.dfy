/** Resource rows, the events watchers receive, and the registry that delivers them. */
module Watch {
  import opened Wrappers
  import opened Identity

  datatype OwnerRef = OwnerRef(gvk: Gvk, name: string, uid: string, controller: bool)

  datatype Projection = NoProjection | Deployment(desiredReplicas: Option<nat>) | OtherProjection

  datatype Record = Record(
    reference: ResourceRef,
    revision: nat,
    labels: map<string, string>,
    summary: string,
    createdAt: string,
    owners: seq<OwnerRef>,
    projection: Projection)

  datatype Event =
    | Snapshot(rows: seq<Record>, asOf: nat)
    | Changed(record: Record)
    | Gone(reference: ResourceRef, revision: nat)

  datatype Selector = Selector(
    context: string, gvk: Gvk, namespace: Option<string>, identity: Option<ResourceRef>)
  {
    /** Whether a changed resource belongs to this watch. */
    predicate Matches(r: ResourceRef) {
      && r.context == context
      && r.gvk == gvk
      && (namespace.Some? ==> r.namespace == namespace)
      && (identity.Some? ==> identity.value == r)
    }
  }

  /** One registered watch: whether a receiver is left, and everything sent to it so far. */
  datatype RegisteredWatch = RegisteredWatch(id: nat, selector: Selector, live: bool, log: seq<Event>)

  /** Delivery to every live matching watch; watches without receivers are pruned. */
  function Broadcast(watches: seq<RegisteredWatch>, r: ResourceRef, e: Event): seq<RegisteredWatch> {
    if |watches| == 0 then []
    else if !watches[0].live then Broadcast(watches[1..], r, e)
    else [Delivered(watches[0], r, e)] + Broadcast(watches[1..], r, e)
  }

  function Delivered(w: RegisteredWatch, r: ResourceRef, e: Event): RegisteredWatch {
    if w.selector.Matches(r) then w.(log := w.log + [e]) else w
  }

  /** After a broadcast the registry holds exactly the live watches, each with its delivery. */
  lemma {:induction false} BroadcastReaches(
    watches: seq<RegisteredWatch>, r: ResourceRef, e: Event, w: RegisteredWatch)
    ensures w in Broadcast(watches, r, e) <==>
            exists v :: v in watches && v.live && w == Delivered(v, r, e)
  {
    if |watches| == 0 {
    } else {
      BroadcastReaches(watches[1..], r, e, w);
      var head, rest := watches[0], Broadcast(watches[1..], r, e);
      assert watches == [head] + watches[1..];
      if exists v :: v in watches && v.live && w == Delivered(v, r, e) {
        var v :| v in watches && v.live && w == Delivered(v, r, e);
        if v != head {
          assert v in watches[1..];
        }
      }
    }
  }

  lemma {:induction false} BroadcastAppend(
    watches: seq<RegisteredWatch>, last: RegisteredWatch, r: ResourceRef, e: Event)
    ensures Broadcast(watches + [last], r, e) ==
            Broadcast(watches, r, e) + (if last.live then [Delivered(last, r, e)] else [])
  {
    if |watches| == 0 {
      assert watches + [last] == [last];
    } else {
      BroadcastAppend(watches[1..], last, r, e);
      assert (watches + [last])[1..] == watches[1..] + [last];
    }
  }

  /** The registry object the store owns. */
  class WatchHub {
    var watches: seq<RegisteredWatch>
    var nextId: nat

    constructor ()
      ensures watches == [] && nextId == 0
    {
      watches, nextId := [], 0;
    }

    /** Register a selector; the first thing its receiver sees is the given event. */
    method Register(selector: Selector, first: Event) returns (id: nat)
      modifies this
      ensures id == old(nextId) && nextId == old(nextId) + 1
      ensures watches == old(watches) + [RegisteredWatch(id, selector, true, [first])]
    {
      id := nextId;
      nextId := nextId + 1;
      watches := watches + [RegisteredWatch(id, selector, true, [first])];
    }

    method Deliver(r: ResourceRef, e: Event)
      modifies this`watches
      ensures watches == Broadcast(old(watches), r, e)
    {
      var retained: seq<RegisteredWatch> := [];
      var i := 0;
      while i < |watches|
        invariant 0 <= i <= |watches|
        invariant watches == old(watches)
        invariant retained == Broadcast(watches[..i], r, e)
      {
        var watch := watches[i];
        BroadcastAppend(watches[..i], watch, r, e);
        assert watches[..i] + [watch] == watches[..i + 1];
        if watch.live {
          if watch.selector.Matches(r) {
            watch := watch.(log := watch.log + [e]);
          }
          retained := retained + [watch];
        }
        i := i + 1;
      }
      assert watches[..i] == watches;
      watches := retained;
    }
  }
}
