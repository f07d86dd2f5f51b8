# Verification of the event broker

A Dafny model of the event broker: an ingest puts CloudEvents into a backend (Redis streams or
memory), subscriptions built from the configured triggers take them out, filter them and send them
to targets, and a status document tells about all of it. The project proves what the broker
promises over whole runs: delivery at least once and in order, no lost status, reconciliation that
converges, no deadlock. `dafny verify dfyconfig.toml` checks everything.

Where the program changes state step by step there are two views of it. A class has the
program's fields and methods, and each method is proved equal to a function on values. Where
several threads or processes meet, a state machine lists every atomic step, and the results hold
for every sequence of steps.

| module | subject |
|---|---|
| `StreamIds` | stream IDs, how they print, what comparing them as strings decides, bounds of a trigger |
| `SubscriptionLoop` | the read loop of one Redis subscription, as a function of replies and as a class |
| `RedisGroup` | a consumer group with its pending lists, any number of loops, dispatch goroutines, crashes, trims |
| `RedisOwners` | whose entries loops and dispatches work on; a dispatch whose subscription is cancelled |
| `RedisProgress` | what a cancelled loop can still do; redelivery after a crash |
| `RedisMoves` | exactly which steps move an entry, a run or a dispatch, and how |
| `RedisDelivery` | that acknowledgements take effect and every event can come to its end |
| `RedisLifecycle` | the registry of Redis subscriptions and its shutdown |
| `StatusTypes` | merging and comparing statuses |
| `StatusManager` | the write-behind status cache and the loop that writes it |
| `SharedStatus` | the ConfigMap that all instances read, edit and write |
| `StatusLiveness` | how long a live instance stays listed there |
| `MemoryBroker` | the memory backend: buffer, fan-out, drain |
| `Filters` | validation, compilation and meaning of filter trees |
| `Subscriber` | applying a trigger and dispatching an event |
| `SubscriptionManager` | reconciliation with a configuration |
| `Agreement` | reconciliation interleaved with dispatches |
| `Locks` | the locks of all components, and what is done under them |
| `ConfigPolling` | the file poller and the configuration kept from it |

## Where the code departs from its comments or from what one would expect

Each of these is modelled as the code has it and has a lemma of its own.

- End IDs are compared as strings. That is the order of the IDs exactly under the condition
  `IdsAgree`; `SequenceWidthMatters` shows both ways in which it goes wrong.
- An end date before 1970 is a negative number of milliseconds, which as a string is below every ID: it stops
  all messages. As a start it is no ID that a server reads (`NegativeDates`).
- A bounded loop assigns its exit flag with every valid message, so a cancellation can be
  overwritten for good; the loop then neither ends nor reads anything any more (`CancellationLost`,
  `LostRunIsIdle`; `LostRunExists` gives a run for every consumer, bound and ID below it).
- A failed status write counts as done: the local flag that should say otherwise is set only if it
  is set already. The results speak of attempted writes (`StatusManager.Manager.UpdateStatus`).
- An ingest change never makes a write due (`IngestWaitsForExpiry`).
- A trigger whose creation failed keeps its status after it leaves the configuration
  (`FailureOutlivesTrigger`); `ThreeWayAgreement` and `StaleTellsOfFailure` say when there is such a status.
- Acknowledgements are sent on the subscription's context, so an event dispatched before a cancellation
  and delivered after it stays pending (`CancelledDispatchStaysPending`).
- Unsubscribing from Redis does not wait for dispatches, so one of them can bring back the status
  of a removed trigger (`LateDispatchRevives`).
- Filters with several dialects in a node pass validation while the feature is disabled, and then
  all but the first dialect are ignored (`FirstDialectDecides`; `IgnoredDialectsMatter` says when this
  changes a decision).
- Adding a file to the poller a second time waits for itself (`AddingAgainHangs`).
- A `Produce` that looked at the flag before the shutdown panics when it sends after it
  (`LateProducersPanic`, `ShutdownOvertakesProducer`).
- A trigger with retries and a policy but no delay makes the process panic
  (`Subscriber.Subscriber.UpdateTrigger`).

## Model

| member | source | states |
|---|---|---|
| StreamIds.DecimalOrder | pkg/backend/impl/redis/subscription.go:27-35 | among numbers printed with the same width, string order is numeric order and equal strings are equal numbers |
| StreamIds.StringOrderIsIdOrder | pkg/backend/impl/redis/subscription.go:27-35 | for every pair of IDs, the string test `id >= offset` gives the order of (ms, seq) if and only if the first differing components agree on their leading digits |
| StreamIds.BareMillisIsFirstId | pkg/backend/impl/redis/redis.go:335-350 | an end that is only a millisecond count, as a date gives it, acts as the first ID of that millisecond, under the same exact condition |
| StreamIds.SequenceWidthMatters | pkg/backend/impl/redis/subscription.go:27-35 | in every millisecond, sequence 10 passes an end at 9 and sequence 9 is stopped by an end at 10 |
| StreamIds.IdRoundTrip | pkg/backend/impl/redis/redis.go:335-350 | printed IDs and bare milliseconds read back as what they stand for |
| StreamIds.ResolvedEndStopsReplay | pkg/backend/impl/redis/redis.go:327-361 | an end by ID wins over one by date; the resolved bound stops exactly the messages from that ID or millisecond on; without either nothing is stopped |
| StreamIds.ResolvedStart | pkg/backend/impl/redis/redis.go:327-361 | which start the group gets, and that resolution fails exactly when an informed date cannot be parsed, even if an ID would win |
| StreamIds.ResolvesAsAsked | pkg/backend/impl/redis/redis.go:327-361 | with bounds or without, read off the trigger's fields: resolution fails exactly for an informed date that cannot be parsed; the end is the informed ID, or else the date's millisecond, or else none, and the start likewise, or else the end of the stream |
| StreamIds.NegativeDates | pkg/backend/impl/redis/redis.go:335-350 | an end date before 1970 stops every message, and such a start date is no ID |
| SubscriptionLoop.Subscription.Iterate | pkg/backend/impl/redis/subscription.go:123-187 | of one reply the messages up to and with the first one at the bound are taken: the valid ones below it are dispatched, the invalid ones removed, the one at the bound is reported; the flag is up afterwards exactly if one was at the bound, or if it was up or raised and no dispatched message cleared it since; the cursor is the last dispatched ID, or new messages for good |
| SubscriptionLoop.Subscription.Start | pkg/backend/impl/redis/subscription.go:62-198 | the loop goes through a sequence of such iterations, each begun with the flag down, a failed read changing nothing, until the flag is up or the events are over; from a raised flag it changes nothing |
| SubscriptionLoop.PositionFollows | pkg/backend/impl/redis/subscription.go:123-127 | along such a run the cursor is the last dispatched ID until the first empty reply, and new messages from then on |
| SubscriptionLoop.ReplyOfOne | pkg/backend/impl/redis/subscription.go:94-104 | reads ask for one message; handling it is the one step the model of the whole group takes, with the flag raised before it or not |
| SubscriptionLoop.LoopRespectsBound | pkg/backend/impl/redis/subscription.go:129-187 | for every such sequence: nothing at or past the bound is dispatched, Complete is reported at most once, every other valid message that was read is dispatched, in order, and just the invalid ones are removed |
| RedisProgress.CancellationLost | pkg/backend/impl/redis/subscription.go:154-164 | from every reachable state after a cancellation was seen: the run can ever exit if and only if its flag is still up and no message in hand clears it |
| RedisProgress.CancellationGetsLost | pkg/backend/impl/redis/subscription.go:157-164 | from every reachable state in which a run is about to handle a message below its bound, a cancellation at this moment leads to a reachable state from which the run never exits |
| RedisProgress.LostRunExists | pkg/backend/impl/redis/subscription.go:157-164 | for every consumer, every bound and every ID below it there is such a state, reached from an empty stream, beside which the trigger can be subscribed again |
| RedisProgress.LostRunIsIdle | pkg/backend/impl/redis/subscription.go:84-107 | a run whose flag was cleared never exits and never dispatches again, since every read on the cancelled context fails |
| RedisOwners.ReachableOwners | pkg/backend/impl/redis/subscription.go:173-179 | in every reachable state, what a loop has in hand or a goroutine works on is pending at nobody but its own consumer, and a run has at most one goroutine per message it dispatched |
| RedisOwners.CancelledDispatchStaysPending | pkg/backend/impl/redis/subscription.go:201-205 | a dispatch whose ack was not sent when its subscription was cancelled never acknowledges: its entry stays pending at its consumer, whatever else happens but trimming it or an ack by another run's dispatch |
| RedisGroup.ReachableInv | pkg/backend/impl/redis/subscription.go:83-205 | every state that steps of the server, loops, dispatch goroutines and the environment can reach satisfies the invariant of the whole group |
| RedisGroup.AtLeastOnce | pkg/backend/impl/redis/subscription.go:94-187 | in every reachable state, an entry above the group's start is waiting, or pending at exactly one consumer, or acknowledged; and then its dispatch returned, or a loop received no CloudEvent, which happens just for entries that hold none or were trimmed before their acknowledgement, whatever is trimmed later |
| RedisGroup.DispatchesInOrder | pkg/backend/impl/redis/subscription.go:125-186 | in one run the dispatched IDs strictly increase over both phases, whatever acks are late, so nothing is dispatched twice; each is an event beyond the group's start |
| RedisGroup.ReplayIsComplete | pkg/backend/impl/redis/subscription.go:123-127 | when the loop goes over to new messages, all that was pending at its start was dispatched or left the list, after at most one read per pending entry, one more, and one per failed ack of an invalid message |
| RedisGroup.BoundedReplay | pkg/backend/impl/redis/subscription.go:154-164 | no run dispatches at or past its bound or reports Complete twice; every other valid message read was dispatched and just the invalid ones removed; with a canonical end, a dispatched message is below it exactly if the digits agree |
| RedisGroup.BoundMessageStaysPending | pkg/backend/impl/redis/subscription.go:154-164 | a delivered event that the bounds of all runs stop stays pending at one consumer, whatever these bounds are |
| RedisProgress.CancelledRunEnds | pkg/backend/impl/redis/subscription.go:72-104 | once the flag of an unbounded run is set it asks for nothing more and finishes at most its current iteration: a read on its way may still answer, and only that message or the one in hand is dispatched; it then can exit, and has not closed its stop channel before |
| RedisProgress.ReplayFinishes | pkg/backend/impl/redis/subscription.go:123-187 | from any state of a replay with any bound, if the message in hand and the pending events ahead are below the bound, reads and acks that succeed bring the loop to new messages with no pending event lost |
| RedisProgress.RedeliveredExactly | pkg/backend/impl/redis/subscription.go:67-68 | from every reachable state and for every bound: after a restart a pending event can be dispatched again if and only if neither it nor a pending event before it is stopped by the bound, whatever else is read, acknowledged or restarted, as long as nothing is trimmed |
| RedisProgress.PendingIsRedelivered | pkg/backend/impl/redis/subscription.go:67-68 | from every reachable state a restart without bound can dispatch every pending event again |
| RedisMoves.EntryMoves | pkg/backend/impl/redis/subscription.go:94-205 | for every step: an entry is pending at a consumer exactly if the server just handed it over, or it was and no acknowledgement of it took effect; it is acknowledged exactly if it was, or one took effect while it was pending; the group's position moves with new deliveries only |
| RedisMoves.StreamMoves | pkg/backend/impl/redis/subscription.go:129-152 | for every step: which entries the stream has, which are trimmed, which were lost to trimming and which were acknowledged without an event |
| RedisMoves.RunsComeAndGo | pkg/backend/impl/redis/subscription.go:83-198 | for every step: a run is there exactly from its start to its exit, its process's end, or the run that takes its place; exactly an exit closes its stop channel and exactly a cancellation cancels it |
| RedisMoves.RunBegins | pkg/backend/impl/redis/subscription.go:67-72 | a run begins before all pending entries, at the top of its loop with the flag down |
| RedisMoves.ReadMoves | pkg/backend/impl/redis/subscription.go:94-121 | for every step: the message in hand, the read under way and the raised flag of a run change exactly by its own reads, by handling, and by the cancelled context |
| RedisMoves.LoopMoves | pkg/backend/impl/redis/subscription.go:123-187 | for every step: the flag rises exactly by the context's goroutine or a message at the bound, and falls exactly by a bounded dispatch; dispatches, removals, reports and cursor change exactly by the message in hand, and the cursor by an empty reply |
| RedisMoves.DispatchMoves | pkg/backend/impl/redis/subscription.go:173-179 | for every step: a dispatch is there exactly from when its loop handed over an event below the bound, through its return and the sending of its ack, to the ack, a cancelled context or the end of its process |
| RedisMoves.ReadsAreAnswered | pkg/backend/impl/redis/subscription.go:94-104 | a read that reached the server can be answered exactly with the next pending entry after the cursor, or with an empty reply if there is none, or with the next new entry, and then the reply can get lost |
| RedisMoves.NothingIsRuledOut | pkg/backend/impl/redis/subscription.go:83-205 | for every state, exactly when each step is possible: appends with growing IDs, trims, crashes, cancellations and failing reads at any time; the loop asks at its top with the flag down and exits there with the flag up; an ack is sent only on a context that is not cancelled, and may then be lost |
| RedisDelivery.AckTakesEffect | pkg/backend/impl/redis/subscription.go:201-205 | in every reachable state: after an ack that arrives nobody holds its entry, which is acknowledged if it was pending and was processed before; every other entry stays in its place, and an ack that does not arrive changes nothing at the server |
| RedisDelivery.DispatchCompletes | pkg/backend/impl/redis/subscription.go:173-179 | from every reachable state, a dispatch under way on a context that is not cancelled can come to the end of its event |
| RedisDelivery.EventCanBeDone | pkg/backend/impl/redis/subscription.go:94-205 | from every reachable state, whatever crashed, failed or was cancelled: every untrimmed event above the group's start that is not done can come to be dispatched and acknowledged, by any consumer if it is waiting and by its holder if it is pending |
| RedisLifecycle.RegistryAgrees | pkg/backend/impl/redis/redis.go:197-302 | under every interleaving the wait group counts the registered subscriptions, every loop that was started is either registered or cancelled, existing groups keep their start, and once disconnecting nothing is added |
| RedisLifecycle.ShutdownIsFinal | pkg/backend/impl/redis/redis.go:131-162 | whatever is called before and after the shutdown, no subscription remains, the wait group is at zero, and every loop ever started has been cancelled |
| RedisLifecycle.AcceptedExactly | pkg/backend/impl/redis/redis.go:197-244 | a subscription is accepted exactly if the backend is not disconnecting, the name is free, no informed date fails to parse, and the server agrees |
| RedisLifecycle.SubscribedRange | pkg/backend/impl/redis/redis.go:197-267 | an accepted subscription, with bounds or without, stops at the trigger's end ID, or else its end date, or never; a new group starts at the start ID, or else the start date, or the end of the stream, and an existing one keeps its place; nothing else in the registry changes |
| RedisLifecycle.UnsubscribedExactly | pkg/backend/impl/redis/redis.go:269-302 | exactly the named subscription goes and exactly its loop is cancelled; all others stay as they are |
| RedisLifecycle.Redis.Subscribe | pkg/backend/impl/redis/redis.go:197-267 | accepts exactly under that condition; a refusal changes nothing, and success gives the new registry |
| RedisLifecycle.Redis.Unsubscribe | pkg/backend/impl/redis/redis.go:269-302 | cancels and removes a registered subscription and counts down, and does nothing for an unknown name |
| RedisLifecycle.Redis.ShutDown | pkg/backend/impl/redis/redis.go:138-152 | unsubscribing one by one, in any order, comes to the same as cancelling and removing all |
| StatusTypes.SubscriptionStatus.Merge | pkg/status/types.go:134-155 | fills in place what the update does not inform |
| StatusTypes.EqualSoftStatus | pkg/status/types.go:20-56 | true if and only if the ingests have the same status and message, and the subscriptions the same names and for each the same status and message |
| StatusTypes.EqualStatus | pkg/status/types.go:58-93 | true if and only if the two are equal as values |
| StatusTypes.FoldReadsOff | pkg/status/types.go:134-155 | merging a whole list of updates gives the latest informed status and processing time, and a message if and only if it was informed last and the status has not changed since |
| StatusTypes.NeverLost | pkg/status/types.go:134-155 | a status or processing time that was informed once is there after every later update |
| StatusManager.Manager.EnsureSubscription | pkg/status/status.go:184-212 | the three branches on the cached objects are the update of the value model |
| StatusManager.Manager.EnsureNoSubscription | pkg/status/status.go:214-223 | removes the entry and flags the change, if there is one |
| StatusManager.Manager.UpdateIngestStatus | pkg/status/status.go:159-182 | stores the ingest and never raises the flag |
| StatusManager.Manager.UpdateStatus | pkg/status/status.go:122-150 | hands the cached status to the backends and clears the flag, whichever of them fail |
| StatusManager.Manager.CheckDue | pkg/status/status.go:112-116 | the loop goes on to a write exactly when flagged or expired; other callers can come between the check and the write |
| StatusManager.FlagExactly | pkg/status/status.go:184-212 | an update raises the flag, and wakes a waiting loop, exactly for a new name or a status or message other than the cached one; other names stay as they are |
| StatusManager.ProcessingTimeWaits | pkg/status/status.go:192-207 | an update that informs of nothing but the processing time stores it and causes no write |
| StatusManager.TurnDecides | pkg/status/status.go:98-120 | wherever the loop is, its next turn is possible and ends in a write exactly if one was due or under way |
| StatusManager.DirtyFlagAndLog | pkg/status/status.go:98-233 | after every run: flagged, or the last attempted write showed the same names with the same statuses and messages; and each cached value is the fold of the updates since its last removal |
| StatusManager.UnwrittenChangeIsWritten | pkg/status/status.go:112-150 | a change that was not handed over is handed over by the next check, whatever signals were dropped |
| StatusManager.IngestWaitsForExpiry | pkg/status/status.go:159-182 | no sequence of ingest changes causes a write before the last one expires; the first one after that writes the latest ingest |
| SharedStatus.NoLostUpdate | pkg/common/kubernetes/status/status.go:61-108 | under every interleaving of any number of instances an entry is exactly its instance's last accepted write, or is absent because there was none or because a peer saw that very write older than the expiry |
| SharedStatus.AcceptedWriteIsAtomic | pkg/common/kubernetes/status/status.go:83-105 | an accepted write sets its own entry and removes just the expired ones from the document as it is at that moment |
| SharedStatus.DocumentMoves | pkg/common/kubernetes/status/status.go:61-108 | for every step: document, version and history change by an accepted write only, which makes the read edit the document; an attempt is under way exactly from its read to its write or its failure |
| SharedStatus.AnyTime | pkg/common/kubernetes/status/status.go:61-108 | for every state: an instance can begin, read ages up to now, write after whatever happened in between, and go away at any moment |
| SharedStatus.KubernetesBackend.UpdateStatus | pkg/common/kubernetes/status/status.go:61-108 | the edited document is written if nothing intervened; otherwise the document of the last peer stands |
| SharedStatus.KubernetesBackend.RemoveStale | pkg/common/kubernetes/status/status.go:83-94 | drops just the peers whose age exceeds the expiry, never the own entry |
| StatusLiveness.AttemptsAreTimely | pkg/status/status.go:98-120 | with timely ticks, attempted writes are less than force period plus resync period apart |
| StatusLiveness.StaysListedExactly | pkg/broker/broker.go:86-91 | for all periods and every expiry, with the loop and any peers working on one document: an instance is listed with its last accepted status in every run with at most f failed writes in a row, if and only if (f+1)*(force+resync-1) <= expiry |
| StatusLiveness.LiveInstanceStaysListed | pkg/common/kubernetes/status/status.go:83-94 | the one half, for every run of loop and peers |
| StatusLiveness.LiveInstanceIsEvicted | pkg/common/kubernetes/status/status.go:83-94 | the other half: a run with f failed writes after which a peer has removed the live instance |
| StatusLiveness.DefaultPeriods | pkg/broker/broker.go:86-91 | with periods of 60 and 10 seconds and three force periods of expiry, in any unit of time, one failed write is always survived and two are not |
| MemoryBroker.ConservationAndOrder | pkg/backend/impl/memory/memory.go:50-118 | in every reachable state accepted events are, in order, those fanned out, the one in progress and the buffer; the buffer keeps its capacity; a fan-out reaches exactly the registered callbacks; a stopped broker has fanned out everything |
| MemoryBroker.EventMoves | pkg/backend/impl/memory/memory.go:50-118 | for every step: exactly the three ways of sending accept an event, exactly the end of a fan-out finishes one, callbacks change only outside of fan-outs, and exactly a send to the closed channel panics |
| MemoryBroker.WhoCanGoOn | pkg/backend/impl/memory/memory.go:50-118 | for every state: what producers, registrations, a fan-out and the loop wait for, each exactly |
| MemoryBroker.ReplyReenters | pkg/backend/impl/memory/memory.go:50-61 | while there is room, the reply of a target can go back into the buffer if the backend is open, and is turned away if it is closing |
| MemoryBroker.DrainEnds | pkg/backend/impl/memory/memory.go:92-104 | after the close nothing is accepted, each receive takes one event off, and at the end all accepted events are fanned out |
| MemoryBroker.DrainIsNeverStuck | pkg/backend/impl/memory/memory.go:92-118 | until it has stopped, the drain can always take a step |
| MemoryBroker.LateProducersPanic | pkg/backend/impl/memory/memory.go:50-61 | after the close, a producer can come to panic if and only if it had passed the check of the flag and not sent yet |
| MemoryBroker.ShutdownOvertakesProducer | pkg/backend/impl/memory/memory.go:50-61 | with every capacity there is a run in which that happens |
| MemoryBroker.OffersFill | pkg/backend/impl/memory/memory.go:50-61 | an open backend takes offers in order up to its capacity, to the last place, and a closing one takes none |
| MemoryBroker.ArrivalsFill | pkg/backend/impl/memory/memory.go:112-118 | a fan-out calls every callback once, in order, and what is offered meanwhile fills the buffer up to the capacity; nothing of it gets into a closing one |
| MemoryBroker.ArrivalsThatFit | pkg/backend/impl/memory/memory.go:112-118 | the two at once, for an open backend and a closing one |
| MemoryBroker.OfferedFollow | pkg/backend/impl/memory/memory.go:112-118 | what is offered during calls is what is offered during each of them, one after the other |
| MemoryBroker.RoundServes | pkg/backend/impl/memory/memory.go:81-91 | a round before the shutdown takes what fits of a batch and then fans out the oldest event to every callback, without waiting for the drain |
| MemoryBroker.RoundsFollow | pkg/backend/impl/memory/memory.go:81-91 | rounds follow each other, so that this holds of every one of them |
| MemoryBroker.StartServesEverything | pkg/backend/impl/memory/memory.go:81-110 | when `Start` returns, everything accepted was fanned out in order, to every callback once, whatever arrived between and during fan-outs; the drain accepted nothing |
| MemoryBroker.StartIsRun | pkg/backend/impl/memory/memory.go:81-110 | what `Start` computes is reached by the steps of the concurrent broker, with its loop stopped |
| MemoryBroker.Memory.Produce | pkg/backend/impl/memory/memory.go:50-61 | accepts exactly if the backend is not closing and a place is free; then the event is appended, and otherwise nothing changes |
| MemoryBroker.Memory.FanOut | pkg/backend/impl/memory/memory.go:112-118 | the calls of one event, and what is offered during each of them |
| MemoryBroker.Memory.Start | pkg/backend/impl/memory/memory.go:81-110 | the rounds of the loop, then the drain |
| Filters.Materialize | pkg/subscriptions/subscriber.go:197-230 | the compiled filter, or none |
| Filters.MaterializeList | pkg/subscriptions/subscriber.go:184-195 | the compiled members, without those that were dropped |
| Filters.HasMultipleDialects | pkg/config/broker/types_validation.go:85-123 | true if and only if more than one dialect is set |
| Filters.ValidationIsExact | pkg/config/broker/types_validation.go:35-83 | with the feature enabled, validation accepts exactly the trees with one dialect per node and well-formed attribute names at every depth |
| Filters.DisabledValidation | pkg/config/broker/types_validation.go:44-76 | with the feature disabled every list is accepted, and of a single filter just the nodes reached through negations are looked at |
| Filters.NamePattern | pkg/config/broker/types_validation.go:30-42 | a valid attribute name is a letter followed by letters and digits, all in lower case |
| Filters.CompilationPreservesMeaning | pkg/subscriptions/subscriber.go:184-230 | for every tree with one dialect per node and every event, the compiled filter says what the direct three-valued reading says |
| Filters.RootDecision | pkg/subscriptions/subscriber.go:109-113 | a trigger skips an event exactly when one of its filters reads as failing |
| Filters.LeafSays | pkg/subscriptions/subscriber.go:200-211 | a leaf without attribute or value is dropped; any other passes exactly the events that have every attribute, with the value given, or one that starts or ends with it |
| Filters.VerdictTables | pkg/subscriptions/subscriber.go:184-230 | how verdicts combine: one failing member decides a conjunction and one passing member a disjunction, and a filter that says nothing leaves both as they are |
| Filters.DialectsInOrder | pkg/subscriptions/subscriber.go:200-228 | for every node, exact, prefix, suffix, all, any and not are looked at in this order, and the first that is set decides alone |
| Filters.FirstDialectDecides | pkg/subscriptions/subscriber.go:200-228 | for every tree whatever and every event, the compiled filter says what the reading of the tree reduced to the first dialect of every node says |
| Filters.IgnoredDialectsMatter | pkg/subscriptions/subscriber.go:200-228 | for every node, the verdict differs from the full reading if and only if the first dialect passes and the conjunction of the others fails, or the first is dropped and the others say something; the decision differs if and only if the others fail and the first does not |
| Filters.SecondDialectIsIgnored | pkg/config/broker/types_validation.go:44-54 | for all attributes and values, a trigger whose second dialect fails an event is accepted while the feature is disabled and passes it |
| Filters.AlikeListsDecideAlike | pkg/subscriptions/subscriber.go:184-230 | reordering or repeating members at any depth changes no decision |
| Filters.PermutedFiltersDecideAlike | pkg/subscriptions/subscriber.go:109-113 | any permutation of a trigger's filters decides alike |
| Subscriber.Subscriber.UpdateTrigger | pkg/subscriptions/subscriber.go:49-93 | panics exactly if retries lack a delay, refuses exactly a delay that does not parse, and only otherwise takes the trigger |
| Subscriber.RetriesAsHeld | pkg/config/broker/config.go:181-188 | the options of the trigger hold before those of its target; retries need a count of at least one and a policy, and then a delay that parses; an empty URL or sink counts as none |
| Subscriber.Subscriber.Send | pkg/subscriptions/subscriber.go:147-182 | succeeds exactly if the event is accepted and its reply, if any, is ingested |
| Subscriber.Subscriber.DispatchCloudEvent | pkg/subscriptions/subscriber.go:95-139 | an event is filtered, sent, dead-lettered or lost, each if and only if its condition holds, with the requests made in order and one status change in every case |
| SubscriptionManager.Manager.UpdateFromConfig | pkg/subscriptions/manager.go:54-113 | for any prior state, any failures and any order, each name's subscriber, status and backend calls after an update: removed if not configured, else updated, created or reported as failed, and as before only if a surviving changed trigger that cannot be applied ended the update, which happens exactly if there is one; the process panics only over a trigger that lacks a delay and is not in force, and, if nothing ends the update early, whenever there is one |
| SubscriptionManager.FailuresAreIsolated | pkg/subscriptions/manager.go:71-112 | whatever creations fail, unless a surviving trigger that cannot be applied ends the update: every name that survives or can be created is in force with its configured value, new ones show Ready without an earlier message, and every other configured name has no subscriber and shows that its creation failed |
| SubscriptionManager.StoppingTriggerIsKept | pkg/subscriptions/manager.go:106-111 | a trigger that ends the update stays as it was, with its status and its registration |
| SubscriptionManager.SurvivorsAreLeftAlone | pkg/subscriptions/manager.go:71-112 | in every update a surviving name keeps its status, causes no backend call, and has its new or its former value; a created one shows Ready |
| SubscriptionManager.Converges | pkg/subscriptions/manager.go:54-113 | without a fault the subscribers are the configuration by name and value, and just the stale statuses of configured names go |
| SubscriptionManager.NothingToDo | pkg/subscriptions/manager.go:97-100 | a configuration that is in force changes nothing, whatever would fail |
| SubscriptionManager.CallsTakeTurns | pkg/subscriptions/manager.go:59-112 | over any sequence of configurations, with any failures and any dispatches in between, registrations and removals of a name take turns, starting with a registration, and the last tells whether it has a subscriber |
| SubscriptionManager.StaleTellsOfFailure | pkg/subscriptions/manager.go:59-85 | over any such sequence, whatever dispatches do to the statuses of subscribers, a status without a subscriber is the unchanged report of a creation that failed, of a name not registered since |
| SubscriptionManager.ConvergesAndStays | pkg/subscriptions/manager.go:97-100 | after one update without fault, repeating its configuration changes nothing at all, however often and whatever fails then; subscribers, calls and status names stay over the dispatches in between too |
| Agreement.ThreeWayAgreement | pkg/subscriptions/manager.go:54-113 | between updates, under every interleaving with dispatches: subscribers and callbacks have the same names, and the status too if and only if no failed creation and no late dispatch is left; under the memory backend's lock no dispatch is late |
| Agreement.NameMoves | pkg/subscriptions/manager.go:54-113 | for every step and name: exactly what adds it to, or takes it from, the subscribers, the callbacks, the status, the dispatches under way and what an update has yet to get to |
| Agreement.WhoWaits | pkg/backend/impl/memory/memory.go:63-79 | for every state: dispatches wait for nobody, and an update waits exactly where the memory backend's lock makes it wait for the fan-out |
| Agreement.LateDispatchRevives | pkg/backend/impl/redis/subscription.go:173-179 | without that lock, from any state between updates, a dispatch can leave the status of a removed trigger behind |
| Agreement.FailureOutlivesTrigger | pkg/subscriptions/manager.go:59-85 | also under the lock, from any state between updates, a creation that fails leaves a status that stays when the trigger is gone from the configuration |
| Locks.JobBalanced | pkg/subscriptions/manager.go:56-57 | each of the broker's jobs takes its locks in the order poller, manager, backend, subscriber, status, and gives them all back, if and only if it is not an `Add` of a path that is polled already |
| Locks.AddIsBalanced | pkg/common/fs/poller.go:60-88 | `Add` keeps that order if and only if the path is not polled yet |
| Locks.SomeoneCanMove | pkg/subscriptions/subscriber.go:95-97 | threads that take locks in that order never all wait, also with readers that wait for waiting writers |
| Locks.BrokerHasNoDeadlock | pkg/backend/impl/memory/memory.go:112-118 | any number of threads with any jobs under any schedule: as long as one is not done, one can move, and writers are alone |
| Locks.WhoWaits | pkg/subscriptions/subscriber.go:95-97 | a writer gets a lock exactly if nobody has it, a reader exactly if no writer has it or waits for it |
| Locks.JobDoes | pkg/subscriptions/manager.go:54-113 | leaving the locks aside, each job does what it is for, in order: an update unsubscribes, forgets and reports what is gone, configures, subscribes, reports and records what is new, and configures what changed |
| Locks.ExclusiveDeeds | pkg/subscriptions/subscriber.go:86-97 | any number of threads with any jobs under any schedule: no two are ever at once at edits of the status, of the manager's map or of the registrations, at a change of a trigger and a delivery by it, or at a change of registrations and a fan-out |
| Locks.AddingAgainHangs | pkg/common/fs/poller.go:60-88 | a thread that adds a polled path never ends, whatever it and the others were to do, and once it has the poller's lock nobody gets it again |
| ConfigPolling.KeptNeverRepeats | pkg/common/fs/poller.go:112-131 | the contents called back with start with contents, never repeat, and end with what was read last |
| ConfigPolling.KeptIsEveryChange | pkg/common/fs/poller.go:112-131 | every observation is one of them, in order and without gaps |
| ConfigPolling.CacheIsTransparent | pkg/config/broker/poller/poller.go:67-84 | the configuration is the one that parsing every single observation would give |
| ConfigPolling.OnAllIsLatest | pkg/config/broker/poller/poller.go:67-84 | it is the parse of the latest contents that are there and valid |
| ConfigPolling.FilePoller.Poll | pkg/common/fs/poller.go:112-131 | one callback per file whose contents changed, and the cache is the last observation |
| ConfigPolling.FilePoller.GetContent | pkg/common/fs/poller.go:48-58 | the last observation of a polled file, or an error |
| ConfigPolling.Period | pkg/config/broker/poller/poller.go:53-84 | after every period the configuration is that of the latest valid contents |

## Left out

- The Kafka backend: its commits belong to a client library, and its lifecycle repeats the Redis one.
- Redis, Kubernetes and HTTP clients, TLS, retries and backoff: their outcomes are parameters or free choices.
- JSON, YAML, ISO 8601 and RFC 3339 parsing: partial functions. One function stands for the two date layouts, which accept the same dates. A status document that cannot be parsed counts as empty, though a JSON decoder may keep part of it.
- The filter library: leaf matching, the refusal of empty attributes and values, and the three-valued algebra are assumptions stated in `Filters`.
- File watching, metrics, logging, observability configuration, argument validation, command wiring and generated copies: easy members without a run-level property.
- A merge into a nil status panics in the program and is not modelled. URLs are taken as parsable, which validation of the configuration sees to.
- Data races on `exitLoop`, `closing`, `disconnecting` and `writeAsap`: every access is one atomic step.
- RedisGroup.AtLeastOnce: an entry trimmed while pending comes back without contents and is acknowledged unprocessed, so the promise to process is for entries that are not trimmed before. Groups deleted or moved by an operator, and claims of another consumer's entries, are not modelled.
- RedisGroup.DispatchesInOrder: is about one run. One loop per consumer name runs at a time, except that a new one can start beside one whose cancellation was lost, which is then left out of the state because it does nothing any more (`RedisProgress.LostRunIsIdle`).
- RedisProgress.RedeliveredExactly: says what can happen, not that a scheduler makes it happen.
- RedisLifecycle.Redis.Unsubscribe: the wait for the loop, up to a timeout, takes no time, and after the timeout the cancelled loop may still run; the loop itself is in `RedisProgress`.
- RedisLifecycle.Redis.ShutDown: the wait for the group, also up to a timeout, and the closing of the client are not modelled.
- SharedStatus.NoLostUpdate: assumes that the API server refuses updates of a changed object, that only brokers write the key, and one clock for all instances.
- StatusLiveness.StaysListedExactly: assumes timely ticks and writes that take no time; a failed write leaves the document as it is. That a write is possible only against the present version is in `SharedStatus`.
- StatusManager.Manager.UpdateIngestStatus: statuses are values here, so a caller that later changes an object it passed in is not modelled.
- MemoryBroker.Memory.Produce: in the class a send to a full buffer times out at once; waiting for room is in the state machine of the same module.
- SubscriptionManager.Manager.UpdateFromConfig: the cached status is a value here, its objects are in `StatusManager`; a status manager is always present; the trigger that panics is looked at before a refusal by the backend. New bounds of an existing trigger are stored and not applied, as in the program.
- SubscriptionManager.StaleTellsOfFailure: dispatches fall between updates and concern registered names. Those during an update, and the late ones of the Redis backend, are in `Agreement`.
- Agreement.ThreeWayAgreement: statuses are reduced to names.
- Locks.BrokerHasNoDeadlock: waits with a timeout (a full buffer, a subscription that stops, requests) are work that ends.
- ConfigPolling.FilePoller.Poll: every path is added once, with one callback, since the second `Add` does not return (`Locks.AddingAgainHangs`); callbacks are recorded rather than called.
