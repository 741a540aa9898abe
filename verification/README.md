# k10s verification model

A Dafny model of the stateful cores of k10s, with proofs about every run of them.

* **The versioned resource store** of the fake Kubernetes adapter: records stamped by one revision, single-use
  validation tickets, bounded idempotency and operation stores, watchers fed a snapshot and then deltas.
  `Store` gives every operation as a transition on a value; `FakeStore.FakeState` and `Watch.WatchHub` are the
  objects whose methods update fields in place and are tied to those transitions; `StoreInvariants`,
  `WatchConvergence`, `GuardedApply` and `Submissions` hold the theorems about runs. `Related` is the owner
  traversal, `Calendar` and `Timestamp` the date conversion, `StreamHub` the log stream tickets.
* **The port-forward session manager**: start, stop, failed streams, context transitions, lists and shutdown as
  tasks whose counters say which lock they hold. One step is what a task does between two points where it may
  wait. `PortForward` is the protocol; `PortForwardSafety`, `PortForwardActive`, `PortForwardPublication` and
  `PortForwardTheorems` prove its invariants by rely and guarantee; `PortForwardReferences` shows that the
  protocol's guards only ever wait for locks; `PortForwardWatermark` and `PortForwardOutrun` settle when a list's
  raised revision can be trusted; `PortForwardRetention` is the pruning of ended sessions; `ConnectionBudget` is
  the lock-free connection accounting, one atomic operation a step.
* **The outbound scheduler**: `Outbound` is the queue and its object, `OutboundRuns` adds the connection's
  sequence counter, `OutboundTheorems` proves order, conservation and the meaning of coalescing.
* **Admission and drain**: `Lifecycle`.
* **Two text cores**: `Authority` and `Origin` are the same-origin rule, `Quoting` is POSIX word quoting.

`Text`, `Identity`, `BoundedFifo`, `Sets` and `Wrappers` are what they share.

Where the code and its own comments differ, the model follows the code:

* `list_snapshot` says the raised revision makes every concurrent event included or detectably stale. The
  baseline read first does (`PortForwardTheorems.ListWatermark`); the raised value need not, because rows are
  read one by one. `PortForwardOutrun.RaisedWatermarkMisses` is a run from the start that misses an event: one
  session is stopped after its row is read, and another's start fails before its row is.
  `PortForwardOutrun.RaisedMissesIff` says exactly when the raised value fails: when the rows begin to be read
  the publication gate is free, some session can still publish after its row is read, another can be stamped
  after that, and no further failed start blocks the reading. One unsettled session is never enough
  (`PortForwardOutrun.SettledListCovers`).
* `close_barrier` says a later handler sees readiness Draining. A delayed startup task may set it to Ready
  again; what refuses the handler is the closed flag (`Lifecycle.LateReadyIsRefused`).
* The snapshot filter of a resource watch and its selector differ on an identity sent without its object's
  namespace: such a watch lists the object, never hears of it again and never becomes right
  (`WatchConvergence.DeafForGood`). On every run a watch is right exactly when its snapshot agreed with its
  selector (`WatchConvergence.WatchConvergesIff`), which a request ensures on every store exactly when it sends no
  identity, or a namespace with it (`WatchConvergence.RequestAgreesIff`).
* The rendered script hands the kubectl path to `env` as an operand, and `env` takes an operand with an equals
  sign for a variable. The script runs the original command exactly when the path has none
  (`Quoting.ExecRunsIff`); otherwise the word after the path is run (`Quoting.PathTakenForVariable`).

## Model

| member | source | states |
|---|---|---|
| Identity.JoinFieldsUnique | crates/k10s-backend/src/port.rs:455-470 | length-prefixed fields joined by bars are uniquely decodable, whatever characters they hold |
| Identity.ExactIdentityKeyInjective | crates/k10s-backend/src/port.rs:455-470 | two identities have one key exactly when they are equal up to namespace absent against empty |
| Identity.FingerprintInjective | crates/k10s-backend/src/fake.rs:736-740 | across all six command kinds, fingerprints agree exactly when the requests are the same, up to namespace absent against empty |
| BoundedFifo.EvictOldest | crates/k10s-backend/src/fake.rs:1274-1280 | the eviction loop ends, restores the bound and removes only from the front of the queue |
| BoundedFifo.InsertMirrors | crates/k10s-backend/src/fake.rs:540-561 | queueing a new key keeps queue and map in step within the bound and evicts at most the oldest key |
| BoundedFifo.InsertAscends | crates/k10s-backend/src/fake.rs:1274-1280 | a queue of counter values stays ascending when the next value is queued and the front dropped |
| BoundedFifo.InsertEvictsFront | crates/k10s-backend/src/fake.rs:556-560 | a key is evicted exactly when the store is full and it is at the front |
| BoundedFifo.MirrorsLength | crates/k10s-backend/src/fake.rs:540-561 | a duplicate-free queue listing exactly the map's keys is as long as the map |
| Watch.BroadcastReaches | crates/k10s-backend/src/watch.rs:95-105 | after a broadcast the registry holds exactly the live watches, each with the event if and only if it matches |
| Watch.WatchHub.Register | crates/k10s-backend/src/watch.rs:78-91 | a registered watch starts with its first event and a fresh id, behind the others |
| Watch.WatchHub.Deliver | crates/k10s-backend/src/watch.rs:95-105 | delivery in place is the broadcast |
| StoreInvariants.StepKeeps | crates/k10s-backend/src/fake.rs:94-126 | every operation keeps the bounded stores mirrored within 32, 64 and 32 and queued in the order their ids were handed out, stamps distinct and not beyond the revision, ids fresh |
| StoreInvariants.RunKeeps | crates/k10s-backend/src/fake.rs:94-126 | the same in every state of every run |
| StoreInvariants.TicketsEvictOldest | crates/k10s-backend/src/fake.rs:1271-1280 | a validation pushes out the oldest retained ticket exactly when 32 are retained, and no other |
| StoreInvariants.OperationsEvictOldest | crates/k10s-backend/src/fake.rs:540-545 | a new operation pushes out the oldest retained one exactly when 64 are retained, and no other |
| StoreInvariants.KeysEvictOldest | crates/k10s-backend/src/fake.rs:546-560 | a new key pushes out the key of the oldest operation exactly when 32 are retained, and no other |
| FakeStore.FakeState.BeginOperation | crates/k10s-backend/src/fake.rs:527-573 | opening an operation in place is the transition, with both evictions |
| FakeStore.FakeState.ReplayOperation | crates/k10s-backend/src/fake.rs:506-525 | the answer for a key: none, the first operation, or a conflict |
| FakeStore.FakeState.CheckTicket | crates/k10s-backend/src/fake.rs:745-811 | the checks in the code's order, each with its error |
| FakeStore.FakeState.PerformApply | crates/k10s-backend/src/fake.rs:812-876 | the repeated checks cannot fail once the first ones have passed; the effect is the transition |
| FakeStore.FakeState.ApplyYaml | crates/k10s-backend/src/fake.rs:717-878 | the whole command: result and new state, and every error leaves the state untouched |
| FakeStore.FakeState.ScaleWorkload | crates/k10s-backend/src/fake.rs:886-946 | result and new state of a scale, with its error cases |
| FakeStore.FakeState.DeleteObject | crates/k10s-backend/src/fake.rs:950-1013 | result and new state of a delete, with its error cases |
| FakeStore.FakeState.RestartWorkload | crates/k10s-backend/src/fake.rs:1018-1045 | result and new state of a restart, with its error cases |
| FakeStore.FakeState.CreateJobFrom | crates/k10s-backend/src/fake.rs:1049-1100 | result and new state of a job creation, with its error cases |
| FakeStore.FakeState.SetCronJobSuspended | crates/k10s-backend/src/fake.rs:1103-1143 | result and new state of a suspend, with its error cases |
| FakeStore.FakeState.Run | crates/k10s-backend/src/fake.rs:1587-1660 | every command keeps the store's invariant |
| FakeStore.FakeState.ValidateApply | crates/k10s-backend/src/fake.rs:1203-1286 | a validation issues the ticket bound to what it saw and evicts the oldest past the bound |
| FakeStore.FakeState.TouchResource | crates/k10s-backend/src/fake.rs:448-463 | a touch restamps one row and notifies its watchers, or changes nothing |
| FakeStore.FakeState.DeleteResource | crates/k10s-backend/src/fake.rs:421-443 | a removal drops one row and notifies its watchers, or changes nothing |
| FakeStore.FakeState.TickOperations | crates/k10s-backend/src/fake.rs:578-692 | the loop over unfinished operations is the tick transition, released keys included |
| FakeStore.FakeState.FailNextOperation | crates/k10s-backend/src/fake.rs:695-700 | the failure is armed for the next operation to be opened |
| FakeStore.FakeState.CollectRows | crates/k10s-backend/src/fake.rs:1680-1691 | the snapshot is exactly the rows passing the filter, in store order |
| FakeStore.FakeState.SubscribeWatch | crates/k10s-backend/src/fake.rs:1670-1730 | registration and snapshot are one step under the store lock |
| WatchConvergence.WatchConverges | crates/k10s-backend/src/fake.rs:1670-1730 | for every run, a live watcher folding its snapshot and every delta holds exactly the rows its selector matches |
| WatchConvergence.SubscribeConverges | crates/k10s-backend/src/fake.rs:1680-1718 | the first view is right exactly when no listed row is an identity watch's namespaced object sent without namespace |
| WatchConvergence.SnapshotConvergesIff | crates/k10s-backend/src/fake.rs:1680-1691 | a snapshot is the right view exactly when filter and selector agree on the rows |
| WatchConvergence.SelectorAgreement | crates/k10s-backend/src/watch.rs:34-46 | the one way in which filter and selector part |
| WatchConvergence.WatchConvergesIff | crates/k10s-backend/src/fake.rs:1670-1730 | for every run and at every time a registered live watch is right exactly when its snapshot agreed with its selector |
| WatchConvergence.DeafForGood | crates/k10s-backend/src/fake.rs:1704-1710 | for every run a row listed against the selector stays in the view and no later event is about it |
| WatchConvergence.RequestAgreesIff | crates/k10s-backend/src/fake.rs:1680-1718 | a request agrees on every store exactly when it sends no identity, or a namespace with it |
| WatchConvergence.CollidingJobDiverges | crates/k10s-backend/src/fake.rs:1049-1100 | convergence survives a created job exactly when its generated reference was unused |
| WatchConvergence.ApplyTakesJobName | crates/k10s-backend/src/fake.rs:1075-1084 | from any store with a job or cron job, a validated apply can take the name the next job then gets |
| WatchConvergence.CommitConverges | crates/k10s-backend/src/fake.rs:259-262 | one change and its delta keep a live watcher's view equal to the matching rows |
| WatchConvergence.WatchStays | crates/k10s-backend/src/watch.rs:95-105 | pruning never removes a live watch |
| GuardedApply.TicketOrigin | crates/k10s-backend/src/fake.rs:1252-1280 | a retained ticket was issued by one earlier validation and is as issued |
| GuardedApply.SingleUse | crates/k10s-backend/src/fake.rs:812-813 | no ticket is redeemed twice in a run |
| GuardedApply.PlaceHistory | crates/k10s-backend/src/fake.rs:141-144 | between a validation and a later state a place is undisturbed, or shows that it was overtaken |
| GuardedApply.GuardedApply | crates/k10s-backend/src/fake.rs:717-878 | an apply that opens an operation redeems an unredeemed ticket of the same buffer and target, and nothing changed, deleted or recreated the target since |
| GuardedApply.LiveTicketAdmittedIff | crates/k10s-backend/src/fake.rs:745-811 | a live matching ticket is admitted exactly when the target, or for a create the whole store, has not moved |
| GuardedApply.UpdateEffect | crates/k10s-backend/src/fake.rs:817-838 | an update ticket restamps the validated row and adds none |
| GuardedApply.CreateEffect | crates/k10s-backend/src/fake.rs:840-875 | a create ticket adds one row and changes none |
| Submissions.AtMostOnce | crates/k10s-backend/src/fake.rs:506-525 | while a key is retained nothing else opens under it, the same request gets the first operation, any other a conflict, and neither changes anything |
| Submissions.KeyRetention | crates/k10s-backend/src/fake.rs:556-565 | a key outlives fewer than 32 further openings unless its operation fails |
| Submissions.SafeResubmission | crates/k10s-backend/src/fake.rs:506-573 | within that window a resubmission never runs twice |
| Submissions.TickAdvances | crates/k10s-backend/src/fake.rs:578-692 | one tick advances every unfinished operation exactly once and no finished one |
| Submissions.ThreeTicksFinish | crates/k10s-backend/src/fake.rs:578-692 | three ticks finish an operation, failing exactly when a failure was armed for it |
| Submissions.FailureReleasesKey | crates/k10s-backend/src/fake.rs:668-686 | a tick releases exactly the keys whose operation it drives to failure |
| Related.FindRelated | crates/k10s-backend/src/fake.rs:201-243 | ends on cyclic owners too; returns each uid of the least fixed point of controller edges in the root's scope once, without the root, by type, sorted |
| Related.VisitedIsLeast | crates/k10s-backend/src/fake.rs:204-236 | once a pass discovers nothing the visited uids are the least fixed point |
| Related.SortAscending | crates/k10s-backend/src/fake.rs:237-242 | sorting by distinct keys is the strictly ascending rearrangement |
| Related.AddToPartitions | crates/k10s-backend/src/fake.rs:226-232 | adding a record to the groups keeps them a partition by type |
| Calendar.NextDayIsSuccessor | crates/k10s-backend/src/fake.rs:2724-2737 | for every day count, the next count is the next day of the proleptic Gregorian calendar |
| Calendar.EpochIsDayZero | crates/k10s-backend/src/fake.rs:2724-2737 | day 0, and no other, is the first of January 1970 |
| Calendar.CivilValid | crates/k10s-backend/src/fake.rs:2724-2737 | every count gives a valid date whose day count it is |
| Calendar.CivilInverts | crates/k10s-backend/src/fake.rs:2724-2737 | the conversion inverts the day count on every valid date |
| Calendar.CivilMonotone | crates/k10s-backend/src/fake.rs:2724-2737 | days and dates come in the same order |
| Timestamp.ParsesBack | crates/k10s-backend/src/fake.rs:2711-2721 | the text of any number of seconds reads back to it as date-time of section 5.6 of RFC 3339 |
| Timestamp.SortsThroughYear9999 | crates/k10s-backend/src/fake.rs:2711-2721 | through year 9999 texts sort exactly as the seconds do |
| Timestamp.EpochMoment | crates/k10s-backend/src/fake.rs:39 | the text of the store's epoch is the stamp its new rows carry, midnight of 21 August 2026 |
| StreamHub.Hub.IssueTicket | crates/k10s-backend/src/stream.rs:60-81 | issuing queues a ticket, wraps the counter and evicts past 32 |
| StreamHub.Hub.Redeem | crates/k10s-backend/src/stream.rs:82-125 | a redemption removes the ticket and opens its session with the backlog; a refused one changes nothing |
| StreamHub.Hub.Tick | crates/k10s-backend/src/stream.rs:126-140 | a tick prunes deaf sessions and sends the next line to the named one |
| StreamHub.NeverRedeemedTwice | crates/k10s-backend/src/stream.rs:82-125 | before the counter wraps no ticket is redeemed twice and no ticket's age underflows |
| StreamHub.EvictsOnlyOldest | crates/k10s-backend/src/stream.rs:75-79 | a new ticket pushes out the oldest retained one exactly when the store is full |
| StreamHub.IssueKeepsMirrorIff | crates/k10s-backend/src/stream.rs:65-79 | across a wrap, queue and map stay in step exactly when the next id is not retained |
| StreamHub.WrapBreaksMirror | crates/k10s-backend/src/stream.rs:65-79 | some run brings the counter round to a ticket still retained, where issuing breaks the mirror |
| StreamHub.TicketTextInjective | crates/k10s-backend/src/stream.rs:65 | printed ticket ids are distinct |
| PortForwardSafety.StepGuarantee | crates/k10s-server/src/port_forward.rs:279-841 | what each step may do to the shared state: one task moves, only free locks are taken, sessions only go forward and under their lock |
| PortForwardSafety.StepOwnership | crates/k10s-server/src/port_forward.rs:323-357 | a start keeps sole ownership of its session, which until publication is not Active and holds no key |
| PortForwardActive.StepKeys | crates/k10s-server/src/port_forward.rs:398-403 | live sessions holding a key are listed and hold distinct keys; what a start has scanned stays true |
| PortForwardActive.StepActives | crates/k10s-server/src/port_forward.rs:384-434 | Active sessions are listed, belong to the committed context and are at most 16, through every step |
| PortForwardTheorems.StepInv | crates/k10s-server/src/port_forward.rs:128-136 | every step of every task keeps the protocol's whole invariant |
| PortForwardTheorems.ActiveSessions | crates/k10s-server/src/port_forward.rs:384-530 | in every reachable state Active sessions are listed, in the committed context, at most 16, and live keys are distinct |
| PortForwardTheorems.SwitchLeavesNoneActive | crates/k10s-server/src/port_forward.rs:734-796 | when a transition commits no session is Active, and none becomes so in that step |
| PortForwardTheorems.PublicationOrder | crates/k10s-server/src/port_forward.rs:128-136 | publication order is revision order, and no row lags what was published for it |
| PortForwardTheorems.LifecycleMonotone | crates/k10s-server/src/port_forward.rs:586-627 | sessions never go backwards, terminal states are absorbing, target, context and key are settled once |
| PortForwardTheorems.OneTerminalOutcome | crates/k10s-server/src/port_forward.rs:1267-1316 | however stop, failure and transition race, a terminal session has one published end equal to its state, or one task about to publish it |
| PortForwardTheorems.ListWatermark | crates/k10s-server/src/port_forward.rs:713-729 | a finished list shows every event at or below its baseline unless the session is no longer listed |
| PortForwardTheorems.ListIncludesEarlier | crates/k10s-server/src/port_forward.rs:713-729 | whatever was published before a list began shows in it |
| PortForwardWatermark.RaisedCovers | crates/k10s-server/src/port_forward.rs:713-729 | where no session can outrun another when reading begins, the raised revision covers every event in every continuation |
| PortForwardOutrun.OutrunMisses | crates/k10s-server/src/port_forward.rs:722-726 | where one can, some continuation's finished list misses an event at or below its raised revision |
| PortForwardOutrun.RaisedMissesIff | crates/k10s-server/src/port_forward.rs:713-729 | in every reachable state where reading begins, some continuation misses exactly when one session can outrun another |
| PortForwardOutrun.SettledListCovers | crates/k10s-server/src/port_forward.rs:713-729 | with at most one listed session unsettled when reading begins, every event at or below the raised revision shows or its session is unlisted |
| PortForwardOutrun.RaisedWatermarkMisses | crates/k10s-server/src/port_forward.rs:722-726 | a run from the start whose finished list misses an event at or below its raised revision |
| PortForwardReferences.RunKnown | crates/k10s-server/src/port_forward.rs:279-841 | every session a task refers to exists |
| PortForwardReferences.NeverWithheld | crates/k10s-server/src/port_forward.rs:279-841 | a step that takes a session's lock is enabled whenever that lock is free |
| PortForwardReferences.NeverWithheldElsewhere | crates/k10s-server/src/port_forward.rs:279-841 | publishing, committing, stamping a failure and entering the manager wait only for their locks |
| PortForwardRetention.PruneExpired | crates/k10s-server/src/port_forward.rs:881-925 | pruning keeps everything live, nothing expired, and of the ended sessions the newest 16, though sessions may end between its two scans |
| PortForwardRetention.CollectEnded | crates/k10s-server/src/port_forward.rs:904-914 | the scan lists each ended session once with its end time |
| PortForwardRetention.PrunedIsEnabled | crates/k10s-server/src/port_forward.rs:881-925 | wherever the code prunes, before an insertion too, what pruning removes is what the protocol lets a prune step remove |
| ConnectionBudget.StepInv | crates/k10s-server/src/port_forward.rs:1094-1176 | after any atomic operation each counter equals the reservations held and the granted ones are within 32 and 8 |
| ConnectionBudget.Budgets | crates/k10s-server/src/port_forward.rs:1094-1176 | in every reachable state admitted connections are within both budgets, counters never underflow, and only refusals in progress overshoot |
| ConnectionBudget.ReleasesOnce | crates/k10s-server/src/port_forward.rs:1128-1176 | on every exit a pump gives back each budget exactly once |
| ConnectionBudget.Quiescence | crates/k10s-server/src/port_forward.rs:1094-1176 | with every loop and pump at rest all counters are zero |
| Outbound.Scheduler.constructor | crates/k10s-server/src/outbound.rs:64-76 | capacity at least one, reserve at most the capacity, an empty open queue |
| Outbound.Scheduler.Enqueue | crates/k10s-server/src/outbound.rs:91-109 | result and new queue, keeping the scheduler invariant |
| Outbound.Scheduler.EnqueueSequenced | crates/k10s-server/src/outbound.rs:113-162 | the build closure is called exactly when the queue is open and has room; result and new queue, keeping the invariant |
| Outbound.Scheduler.EnqueueP2 | crates/k10s-server/src/outbound.rs:164-211 | replacement in place or a slot of the P2 partition, keeping the invariant |
| Outbound.Scheduler.EnqueueP2Sequenced | crates/k10s-server/src/outbound.rs:217-271 | a replaced entry always has its sequence and keeps it; result and new queue, keeping the invariant |
| Outbound.Scheduler.EnqueueP2Barrier | crates/k10s-server/src/outbound.rs:277-308 | a queued barrier is shared without building another; result and new queue, keeping the invariant |
| Outbound.Scheduler.TryRecv | crates/k10s-server/src/outbound.rs:310-354 | the selected entry leaves and every other stays in place; closed and empty are told apart |
| Outbound.Scheduler.OverloadClose | crates/k10s-server/src/outbound.rs:380-394 | everything queued is dropped for one closing frame, even on a closed queue |
| Outbound.AppendKeeps | crates/k10s-server/src/outbound.rs:193-209 | a new entry keeps the length, the P2 bound, one entry per identity and sequences where they belong |
| Outbound.TakeKeeps | crates/k10s-server/src/outbound.rs:310-354 | so does a receive |
| OutboundTheorems.StepWellFormed | crates/k10s-server/src/outbound.rs:91-394 | the scheduler invariant holds through every operation |
| OutboundTheorems.SelectsLeast | crates/k10s-server/src/outbound.rs:318-345 | what leaves is least by class and sequence, and oldest among equals |
| OutboundTheorems.SequenceOrder | crates/k10s-server/src/control.rs:1794-1803 | on every run sequenced frames leave in strictly increasing order, and until an overload close delivered and queued are exactly the sequences allocated |
| OutboundTheorems.FirstInFirstOut | crates/k10s-server/src/outbound.rs:310-354 | until an overload close nothing is lost and unsequenced P0 and P1 frames leave in the order they came |
| OutboundTheorems.DrainDeliversNewest | crates/k10s-server/src/outbound.rs:164-271 | draining in exactly queue-length receives leaves the newest admitted payload of every identity, as if all had been delivered |
| OutboundRuns.OfferShape | crates/k10s-server/src/outbound.rs:91-308 | an offer shares the barrier, appends one entry of its own, or replaces one message under the sequence it had |
| Lifecycle.Admission.TryRegister | crates/k10s-server/src/lifecycle.rs:134-149 | a guard with a fresh live id exactly when the barrier is open and readiness is Ready |
| Lifecycle.Admission.CloseBarrier | crates/k10s-server/src/lifecycle.rs:157-164 | closed and Draining in one step, live ids untouched |
| Lifecycle.Admission.HasLive | crates/k10s-server/src/lifecycle.rs:167-174 | true exactly when some id is live |
| Lifecycle.Guard.ConfirmRunning | crates/k10s-server/src/lifecycle.rs:206-218 | the id moves to the running guard and leaves this one |
| Lifecycle.Guard.Drop | crates/k10s-server/src/lifecycle.rs:221-253 | a guard that holds an id retires it, one that does not changes nothing |
| Lifecycle.OneOwnerOneRetirement | crates/k10s-server/src/lifecycle.rs:134-253 | in every interleaving a live id has exactly one guard, and every id is live or was retired once |
| Lifecycle.ClosedOnlyShrinks | crates/k10s-server/src/lifecycle.rs:157-164 | after the barrier closes the live set only shrinks, even if readiness becomes Ready late |
| Lifecycle.DrainSound | crates/k10s-server/src/lifecycle.rs:362-387 | a drain that reports success leaves no accepted upgrade pending or running, then or ever after |
| Lifecycle.LateReadyIsRefused | crates/k10s-server/src/lifecycle.rs:573-583 | readiness can be Ready again behind the barrier, and registration is still refused |
| Authority.CountSide | crates/k10s-server/src/origin.rs:146-163 | the groups of one side, if every colon-separated piece is one |
| Authority.ValidIpv6Literal | crates/k10s-server/src/origin.rs:133-166 | the loops over halves and groups decide the structural check |
| Authority.Ipv6Exact | crates/k10s-server/src/origin.rs:133-166 | accepted are exactly forms 1 and 2 of section 2.2 of RFC 4291 |
| Authority.StrictExact | crates/k10s-server/src/origin.rs:83-114 | accepted are exactly the printed forms, with the parts that print them |
| Authority.SplitJoin | crates/k10s-server/src/origin.rs:154 | splitting at colons inverts joining |
| Origin.StrictLower | crates/k10s-server/src/origin.rs:56-64 | well-formedness does not depend on ASCII case, and lowering changes only the host |
| Origin.ComparedIsAgree | crates/k10s-server/src/origin.rs:65-77 | the normalized texts are equal exactly when hosts agree up to case and effective ports agree |
| Origin.OriginExact | crates/k10s-server/src/origin.rs:19-66 | a present Origin is admitted exactly when both headers are well formed, hosts agree up to ASCII case and effective port texts agree |
| Quoting.LiteralReads | apps/k10s-desktop/src/external_shell.rs:530-532 | a quoted value is read as the value, whatever it holds and whatever surrounds it |
| Quoting.LiteralsReadBack | apps/k10s-desktop/src/external_shell.rs:530-532 | any list of strings, quoted and joined by blanks, is read as exactly that list under sections 2.2.2 and 2.2.3 of POSIX.1-2017 XCU |
| Quoting.AssignmentReads | apps/k10s-desktop/src/external_shell.rs:472-475 | the script assigns the kubectl path itself |
| Quoting.LookupReads | apps/k10s-desktop/src/external_shell.rs:476-482 | the words of the uid lookup are `env -i`, the assignments, the kubectl path and the original arguments |
| Quoting.ExecReads | apps/k10s-desktop/src/external_shell.rs:486-498 | the words of the shell's command are `env -i`, the assignments, the kubectl path and the original arguments |
| Quoting.LookupRunsIff | apps/k10s-desktop/src/external_shell.rs:467-482 | the lookup runs the original kubectl, arguments and environment exactly when the path has no equals sign |
| Quoting.ExecRunsIff | apps/k10s-desktop/src/external_shell.rs:467-498 | so does the shell |
| Quoting.PathTakenForVariable | apps/k10s-desktop/src/external_shell.rs:346-366 | a path with an equals sign becomes one more variable and the word after it is run |

## Left out

* The initial store is any well-formed one without tickets; the fixture rows themselves are data.
* The hash of a buffer is a given text, and parsing a manifest is a given result; neither is computed.
* Row events, manifests and the projections a scale does not touch are not fields of a record.
* Operation watchers and their events; a ticket's disruptive flag, which nothing tests.
* Broadcast channels are unbounded logs: a lagging receiver is not modelled, so the watch theorem is about
  receivers that never lag. Event payloads carry no display time.
* Machine integers are unbounded except the stream ticket counter and the outbound sequence counter, whose wrap
  and exhaustion are written out. Operation and validation ticket ids are numbers printed injectively.
* Kinds are lower-cased over ASCII in generated uids; kind names hold no other letters.
* The port-forward manager is modelled on values, not as an object: its fields are shared by tasks that
  interleave, and a step takes one task from one waiting point to the next. Local addresses, failure texts and
  listeners are not part of the state.
* PortForwardTheorems.ActiveSessions: session ids are assumed fresh, as the generator is a clock.
* The order in which tasks get locks, and whether they ever do: only safety is stated, and a select is a choice
  of step. Locks of other managers are not modelled.
* The protocol's prune step may remove any ended sessions; when it removes them is PortForwardRetention.PruneExpired.
* Reaching the failure threshold is part of the protocol; which stream outcomes count towards it is not.
* Copying bytes, accepting sockets and joining tasks are choices of step in the connection budget.
* Frame serialization and the negotiated protocol version of the scheduler; waiting for a wake-up in `recv`.
* Shutdown stages, force-closing survivors and the abort registry: no property of theirs is claimed.
* The stream route has one value, so the refusal of another route cannot happen and is not written.
* Quoting.LookupRunsIff: the environment has a variable and names have no equals sign, as the allow-list gives it.
* Quoting.LookupReads: the command substitution and the tests around the two commands are not read, only the
  words of the commands; unquoted text is limited to characters that stand for themselves.
* PowerShell rendering, temporary files, terminal launching, protocol conversion and every user interface.
