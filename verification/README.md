# Verification of the event pipeline

This project models the Kafka event library's delivery pipeline in Dafny and proves what it promises: the
consumer that retries, dead-letters and marks; the dead letter handler; the replayer that reads the dead
letter topic back; the producer; the shutdown protocols of all three; the consumer group lag calculator; and
the event type split that routing rests on.

`dafny verify dfyconfig.toml` checks everything.

## How the model is laid out

| files | what they model |
|---|---|
| `GoStrings`, `EventTypes`, `Envelopes`, `Topics` | Go strings as bytes, rune iteration, the domain/action split, validation, routing |
| `Records`, `DeadLetters`, `Sessions` | records, dead letter messages and the handler that sends them, a claim's marks |
| `ConsumerClaim`, `ReplayClaim`, `Replayers` | `ConsumeClaim` and `processMessage` of consumer and replayer as methods over session state, each proved against a trace of events |
| `ConsumerDelivery`, `ReplayDelivery`, `Pipeline`, `PipelineRuns`, `EndToEnd` | any number of sessions or claim threads performing those traces event by event, with crashes, overlaps and commits in between; the two halves joined at the dead letter topic; what dead letters say, and the runs that lose or mislabel one; the fate of every committed source offset |
| `ReplayerLifecycle`, `ConsumerLifecycle`, `PublishingLifecycle` | shutdown under any number of concurrent callers, one step per lock section or blocking call |
| `Publishing` | `Publish`, `PublishToTopic`, `PublishBatch` and `Close` of the producer |
| `Lag`, `GroupHealth` | lag arithmetic in 64 bits, the loops over Go maps in arbitrary order, and the health verdict |
| `Sequences`, `SetSums`, `Options` | sums, counts and unions over sequences and sets |

What the code does one after the other in one goroutine is a method; where goroutines interleave, a state
machine performs the same effects in every order, and lemmas (`SessionsRunTheCode`, `ThreadsRunTheCode`,
`TurnMatchesSteps`, `TurnMatchesPublish`) tie the two together. What the environment decides - how a handler
call ends, what a filter answers, whether a broker accepts, when a session crashes, which marked frontier is
committed and when - is a parameter or an action, and theorems range over all of it. A session's handler
outcomes are functions of offset and attempt; as a session meets each pair once, this covers handlers with
state of their own, and handlers that change the envelope they are given.

Integers have their Go width where it matters (`Lag`); offsets and counters are unbounded.

## Where the code and its description differ

The model follows the code.

- The comment on `Consumer.Start` (consumer/consumer.go:66-67) says that `Close` ends it. The loop never looks
  at the closed flag: `ConsumerLifecycle.CloseDoesNotEndStart` is a run in which it starts another `Consume` after
  the flag is set, `OnlyContextEndsStart` proves that nothing but its context ends it, and `WaitNeedsContexts` that
  a waiting `Close` can go on without a further cancellation exactly when every registered `Start`'s context is done.
- `Consumer.Start` registers with the wait group after releasing the lock it checked the flag under.
  `ConsumerLifecycle.StartMayOutliveClose` exhibits a run in which a `Start` is in its loop after the client was
  closed; `ConsumerLifecycle.GapOutlivesWait` proves that while `Close` waits, a `Start` can be running after that wait
  in some continuation exactly when some call sits between its closed check and its registration.
- `Replayer.Close` (dlq/replayer.go:179-180) waits for active loops, but only in the call that sets the flag:
  `ReplayerLifecycle.SecondCloseDoesNotWait` exhibits a second call that returns while a loop is registered, and
  `ReplayerLifecycle.CloseWaitsExactly` proves that a call keeps the promise exactly when it finds the flag clear or
  no loop registered.
- With `MaxRetries` below 1 the consumer marks messages it never handed to their handler.
  `ConsumerDelivery.AtLeastOnceExactly` shows that at-least-once consumption holds exactly when at least one
  attempt is allowed or no record can reach a handler.
- A dead letter that could not be sent is logged, and the message is marked all the same:
  `PipelineRuns.RefusedSendIsCommitted` is a run that commits an exhausted message and leaves the dead letter topic
  empty. `Pipeline.ExhaustedIsStoredOrFailed` proves that a dead letter is missing exactly when it could not be
  encoded or the broker refused it, and `Pipeline.CallbacksAreStoredOrFailed` counts the failed sends.
- `CreateConsumerDLQHandler` fixes topic, partition, offset and attempt count when the callback is made, so the
  dead letter's metadata describes the callback, although dlq/message.go documents the offset as the original
  message's. `PipelineRuns.LabelledByCallback` proves exactly when a stored dead letter names its message's own topic,
  partition, offset and attempts, and `PipelineRuns.MislabelledRun` is a run in which it does not.
- dlq/message.go:24-27 documents the times of the first and of the last failure. The code sets both to the instant the
  dead letter is made, however many attempts failed before: `DeadLetters.SentMessageReadsBack`.
- The library marks messages and never commits. Theorems about committed offsets hold for any commit that copies
  a frontier some session has marked, even a stale one.

## Model

| member | source | states |
|---|---|---|
| `GoStrings.DecodeRune` | events/types.go:56 | what one step of `range` over a string consumes: a multi-byte rune covers only bytes of 0x80 and above, and an invalid byte counts alone |
| `EventTypes.SkipsNoDot` | events/types.go:56-60 | on any bytes, a rune that is not a dot never swallows a dot byte |
| `EventTypes.Domain` | events/types.go:55-62 | the rune scan returns exactly the bytes before the first dot byte, or the whole type |
| `EventTypes.Action` | events/types.go:65-72 | the rune scan returns exactly the bytes after the first dot byte, or nothing |
| `EventTypes.SplitRebuilds` | events/types.go:55-72 | domain, dot and action rebuild every type with a dot; the domain never holds one |
| `EventTypes.SplitOfJoin` | events/types.go:55-72 | splitting a dot-free domain joined to any action gives both back |
| `Envelopes.EventDomain` | envelope/envelope.go:258-265 | the envelope's copy of the scan agrees with the event type's on every input |
| `Envelopes.EventAction` | envelope/envelope.go:268-275 | likewise for the action |
| `Envelopes.SemverMatchesPattern` | envelope/envelope.go:45 | the version test accepts exactly digits, a dot, digits |
| `Envelopes.Validate` | envelope/envelope.go:194-220 | no error exactly for an envelope with all required fields and a well-formed version, and an error names the first field in the checked order that is missing or malformed |
| `Topics.DLQInjective` | topics/topics.go:31-33 | distinct topics have distinct dead letter topics |
| `Topics.DLQIsAnother` | topics/topics.go:31-33 | a dead letter topic is the topic followed by ".dlq", never the topic itself, and no event type is routed to one |
| `Topics.RoutingDependsOnDomain` | topics/topics.go:46-61 | only the bytes before the first dot decide the topic, and exactly the six known domains have one |
| `Topics.TopicNamedAfterDomain` | topics/topics.go:46-61 | a routed type's topic spells prefix, domain and suffix, payouts going with payments |
| `DeadLetters.SentMessageReadsBack` | dlq/handler.go:49-97 | a sent dead letter decodes to the failed envelope unchanged, the error's text, one timestamp for both failures and the callback's metadata; it goes to the callback's topic followed by ".dlq", keyed by the event |
| `DeadLetters.ErrorText` | dlq/message.go:44-47 | the reported text: none, the handler's own, or a panic's reason with its prefix |
| `DeadLetters.HandledExactly` | dlq/handler.go:40-97 | each outcome exactly when its check is the first to fail, and otherwise the record field by field, headers included |
| `DeadLetters.Handler.Handle` | dlq/handler.go:40-109 | one record is accepted exactly when envelope, encoding and broker allow it, on the callback's topic followed by ".dlq", and otherwise nothing is sent and the reason returned |
| `ConsumerClaim.Attempts` | consumer/consumer.go:168-183 | the number of attempts: all before the last failed, and it stops below the maximum only at a success |
| `ConsumerClaim.AttemptsUnique` | consumer/consumer.go:168-183 | no other number of attempts has that property |
| `ConsumerClaim.ConsumerGroupHandler.InvokeHandler` | consumer/consumer.go:202-210 | no error exactly for an ordinary nil return, a returned error passed on, a panic as the panic error with its reason; whatever the handler did to the envelope stays |
| `ConsumerClaim.ConsumerGroupHandler.Retry` | consumer/consumer.go:168-183 | the attempts made, the envelope they leave behind and the error of the last one |
| `ConsumerClaim.ConsumerGroupHandler.Process` | consumer/consumer.go:168-196 | attempts, then one dead letter callback with the last error exactly when they are exhausted and a callback is set |
| `ConsumerClaim.ConsumerGroupHandler.ProcessMessage` | consumer/consumer.go:141-200 | everything done for one message, in order, ending in its one mark, and what the dead letter producer accepted |
| `ConsumerClaim.ConsumerGroupHandler.ConsumeClaim` | consumer/consumer.go:134-139 | every message of the claim in order, all events of one before the next, the mark frontier past the last |
| `ConsumerClaim.MessageDeliveries` | consumer/consumer.go:185-196 | only exhausted messages are dead-lettered, at most once per session |
| `ConsumerClaim.RegistryLaws` | consumer/handler.go:29-48 | a handler is found for the type it was registered for and no other, the wildcard for exactly the types without a registration |
| `ConsumerClaim.DispatchedExactly` | consumer/consumer.go:144-166 | a message is dispatched exactly when it decodes and a handler is found |
| `ConsumerClaim.ExhaustedExactly` | consumer/consumer.go:168-185 | a message is exhausted exactly when an attempt is allowed and no allowed call returns nil, panics included |
| `ConsumerClaim.MessageIsTruthful` | consumer/consumer.go:141-210 | each event tells what decoder, registry, handler calls, encoder and broker did: which handler got which envelope in which attempt, how the call ended, and what the callback was given and sent |
| `ConsumerDelivery.SessionsRunTheCode` | consumer/consumer.go:134-200 | in every run each session's events are a prefix of what `ConsumeClaim` produces from its start |
| `ConsumerDelivery.RunIsSafe` | consumer/consumer.go:134-200 | with at least one attempt allowed, every offset below the committed one is resolved in every reachable state, whatever crashed, overlapped or was committed |
| `ConsumerDelivery.UnattemptedRun` | consumer/consumer.go:169-199 | with no attempt allowed, a run that commits a message with a handler that was never called |
| `ConsumerDelivery.AtLeastOnceExactly` | consumer/consumer.go:134-200 | at-least-once consumption in all runs if and only if an attempt is allowed or nothing can be dispatched |
| `ConsumerDelivery.MessageSettles` | consumer/consumer.go:168-196 | what a session does with a dispatched message settles it: a success, or all attempts failed and the callback returned |
| `ConsumerDelivery.CallsWithinDeliveries` | consumer/consumer.go:168-196 | over a whole run, handler calls for an offset stay within deliveries times attempts, and callbacks within deliveries |
| `ConsumerDelivery.SessionCallsBack` | consumer/consumer.go:185-196 | a finished message got exactly one callback if it was exhausted and none otherwise |
| `ConsumerDelivery.RunIsTruthful` | consumer/consumer.go:141-210 | so for every event of every session in every run: an attempt without an error is a call that returned nil |
| `ConsumerDelivery.FinishedExactly` | consumer/consumer.go:144-196 | a finished message got the calls up to the first that returned nil and no more than allowed, and one callback exactly when none of them did; without a handler it got neither |
| `ConsumerDelivery.NoSuccessExhausts` | consumer/consumer.go:168-196 | a handler that only returns errors or panics gets all allowed calls, and then one callback |
| `Sessions.FrontierIsLeast` | consumer/consumer.go:199 | the mark frontier is the least offset from the start on that is past every marked message |
| `Replayers.Replayer.TryRegister` | dlq/replayer.go:134-142 | closed check and registration as one section |
| `Replayers.Replayer.Close` | dlq/replayer.go:181-197 | the first call sets the flag, closes the group once and returns the group's error; a later one returns nothing and changes nothing. The wait is played by letting the registered loops leave, so an empty counter afterwards is by construction |
| `ReplayClaim.FirstFailure` | dlq/replayer.go:243-251 | the index of the first message whose replay fails |
| `ReplayClaim.ReplayerGroupHandler.ProcessMessage` | dlq/replayer.go:253-306 | events, counters, mark and error of one message: an error exactly when the replay handler fails, and then no mark |
| `ReplayClaim.ReplayerGroupHandler.ConsumeClaim` | dlq/replayer.go:243-251 | the claim handles messages up to the first failed replay and nothing after, its error is that failure's, the frontier stops before it |
| `ReplayClaim.TallyMessage` | dlq/replayer.go:253-306 | each message counts once as consumed and once: skipped if it is undecodable, without envelope or rejected by the filter, and otherwise failed or replayed as the handler returned |
| `ReplayClaim.MessageIsTruthful` | dlq/replayer.go:253-306 | each event tells what decoder, filter and replay handler said: each skip its reason, calls only of messages the filter accepts, with the decoded envelope |
| `ReplayClaim.MarksAreThePrefix` | dlq/replayer.go:243-306 | exactly the messages before the first failed replay are marked, in order |
| `ReplayDelivery.ThreadsRunTheCode` | dlq/replayer.go:243-306 | in every run each claim thread's events are a prefix of what `ConsumeClaim` produces, and it passed no failed replay |
| `ReplayDelivery.CommittedIsCleared` | dlq/replayer.go:243-306 | every dead letter offset below the committed one was undecodable, had no envelope, was rejected or was replayed successfully |
| `ReplayDelivery.FailingIsNeverPassed` | dlq/replayer.go:291-300 | a message whose every replay failed is never passed by the committed offset |
| `ReplayDelivery.RunKeepsStats` | dlq/replayer.go:206-228 | in every reachable state the statistics count the events of the replayer's threads |
| `ReplayDelivery.StatsNeverDecrease` | dlq/replayer.go:172-177 | of two snapshots the later is nowhere smaller |
| `ReplayDelivery.CountersConserved` | dlq/replayer.go:253-305 | consumed is replayed, skipped, failed and in flight; replayed and skipped are marks made and about to be made; handler calls are replayed, failed and about to be counted; equality exactly when nothing is in flight |
| `ReplayDelivery.ThreadReads` | dlq/replayer.go:257-291 | the envelope given to the replay handler is the one in the record at that offset |
| `ReplayDelivery.RunIsTruthful` | dlq/replayer.go:253-306 | so for every event of every thread in every run: only what the filter refused is skipped as rejected, and nothing it refused reaches the replay handler |
| `Pipeline.Projects` | consumer/consumer.go:134-200 | a run of the joined system is a run of the consumers and a run of the replayers |
| `Pipeline.TopicHoldsWhatWasSent` | dlq/handler.go:87-96 | the dead letter topic holds exactly the accepted dead letters, with multiplicity |
| `Pipeline.ExhaustedIsStoredOrFailed` | consumer/consumer.go:185-199 | each finished message had one callback if exhausted and none if not; the message made of the last attempt's envelope and error is in the partition of the dead letter topic the broker chose, and reads back unchanged, if it can be encoded and the broker accepts it, and otherwise that callback's send failed |
| `Pipeline.CopiesWithinDeliveries` | consumer/consumer.go:185-196 | over a whole run the dead letters accepted for an offset never outnumber its deliveries |
| `Pipeline.RunKeepsPlaced` | dlq/handler.go:87-96 | in every reachable state each accepted dead letter is in the partition the broker put it into |
| `EndToEnd.CommittedIsDecided` | consumer/consumer.go:134-200 | in every run of consumers and replayers together, with at least one attempt allowed: every committed source offset with a handler was handled successfully or dead-lettered; the dead letter is missing only if encoder or broker refused it, and otherwise carries the envelope and is passed by committed replay only after a filter rejected it or its replay succeeded |
| `EndToEnd.AcceptedIsKept` | dlq/replayer.go:253-306 | an accepted dead letter is at an offset of its partition, with the envelope, and replay is not committed past it before it was dealt with |
| `PipelineRuns.RefusedSendIsCommitted` | dlq/handler.go:120-125 | for any record with a handler, a run that commits it exhausted while the dead letter topic is empty |
| `PipelineRuns.LabelledByCallback` | dlq/handler.go:113-119 | a stored dead letter names its message's offset if and only if the callback was created with it, and likewise the number of attempts, and topic and partition |
| `PipelineRuns.RoutedByCallback` | dlq/handler.go:67-96 | it was sent to the dead letter topic of the topic its message came from if and only if the callback was created with that topic |
| `PipelineRuns.AtMostOneLabelled` | dlq/handler.go:113-119 | of the dead letters of two different offsets at most one names its own |
| `PipelineRuns.MislabelledRun` | dlq/handler.go:113-119 | whatever the callback's offset, a run that stores a message's dead letter under another offset |
| `Pipeline.CallbacksAreStoredOrFailed` | dlq/handler.go:120-125 | callbacks made equal records stored plus failed sends |
| `Pipeline.ReplayedWasDeadLettered` | dlq/replayer.go:257-303 | every envelope that reaches a replay handler is, unchanged, one that was dead-lettered after its last attempt failed |
| `ReplayerLifecycle.NoAddAfterClosed` | dlq/replayer.go:134-142 | once closed no step adds to the wait group or makes a loop active |
| `ReplayerLifecycle.ShutdownIsSafe` | dlq/replayer.go:181-197 | in every reachable state the group was closed at most once, and once before any `Close` waits; no loop is active once the winning `Close` has returned |
| `ReplayerLifecycle.QuiescentForever` | dlq/replayer.go:181-197 | nor does any continuation make one active |
| `ReplayerLifecycle.ResultsAreJustified` | dlq/replayer.go:149-168 | nil only after reading the flag as set, the cause only if the context is done, a wrapped error only as that of the last `Consume`, after which the context was found live and the flag clear |
| `ReplayerLifecycle.OneLastConsume` | dlq/replayer.go:149-168 | after closing each loop starts at most one more `Consume` |
| `ReplayerLifecycle.LoopStepsLowerRank` | dlq/replayer.go:149-168 | after closing every loop step lowers the sum of the loops' ranks and nothing raises it |
| `ReplayerLifecycle.LoopStepsBounded` | dlq/replayer.go:149-168 | so every interleaving has at most that many loop steps |
| `ReplayerLifecycle.WaitIsReleased` | dlq/replayer.go:190-191 | while a loop is registered some loop can step; when none is, the waiting `Close` can go on |
| `ReplayerLifecycle.CloseWaitsExactly` | dlq/replayer.go:181-197 | a `Close` never returns while a loop is registered, in any continuation, if and only if it finds the flag clear or no loop registered |
| `ReplayerLifecycle.SecondCloseDoesNotWait` | dlq/replayer.go:183-185 | a run in which a second `Close` returns while a loop is active |
| `ReplayerLifecycle.ReplayWithFilter` | dlq/replayer.go:134-169 | the loop against any sequence of turns: where it ends, with what, and that it leaves the wait group |
| `ReplayerLifecycle.TurnExitExactly` | dlq/replayer.go:149-168 | when a turn ends the loop with which result, from context, `Consume` result and flag |
| `ReplayerLifecycle.TurnMatchesSteps` | dlq/replayer.go:149-168 | a turn of that method and the steps of the interleaved model leave the same way |
| `ConsumerLifecycle.ShutdownIsSafe` | consumer/consumer.go:68-119 | the client is closed at most once and only after the wait; a `Start` registered after that was in the gap; no `Start` leaves but through its context |
| `ConsumerLifecycle.WaitPassesWhenAllDone` | consumer/consumer.go:111-112 | when the wait passes every `Start` that registered has returned with its context done |
| `ConsumerLifecycle.OnlyEarlierChecks` | consumer/consumer.go:69-82 | once the flag is set no `Start` passes its check: those on their way later already were |
| `ConsumerLifecycle.GapOutlivesWait` | consumer/consumer.go:68-119 | while `Close` waits: in some continuation a `Start` is registered after that wait if and only if some call sits between its closed check and its registration |
| `ConsumerLifecycle.GapDecides` | consumer/consumer.go:68-119 | once the flag is set, before or after any wait, some continuation has a registered `Start` if and only if some call is past its check and not yet out |
| `ConsumerLifecycle.StartMayOutliveClose` | consumer/consumer.go:69-82 | a run in which a `Start` loops after `Close` has closed the client |
| `ConsumerLifecycle.OnlyContextEndsStart` | consumer/consumer.go:83-98 | along every continuation without a cancellation, a registered `Start` with a live context stays in its loop, closed or not |
| `ConsumerLifecycle.CloseDoesNotEndStart` | consumer/consumer.go:83-98 | a run in which the loop starts another `Consume` after the flag is set |
| `ConsumerLifecycle.WaitNeedsContexts` | consumer/consumer.go:111-112 | a waiting `Close` can pass its wait without a further cancellation if and only if the contexts of all registered `Start` calls are done |
| `ConsumerLifecycle.Consumer.Start` | consumer/consumer.go:68-99 | refused only if closed at its check; otherwise it registers, also when closed between check and registration, and its loop against any sequence of turns ends only at a done context |
| `ConsumerLifecycle.Consumer.Close` | consumer/consumer.go:102-119 | the first call sets the flag, closes the client once and returns its error; a later one returns nothing and changes nothing. The wait is played by letting the registered calls leave, so an empty counter at the client's close is by construction |
| `ConsumerLifecycle.TurnMatchesSteps` | consumer/consumer.go:83-98 | a turn of that method and the steps of the interleaved model leave the same way |
| `Publishing.ItemError` | producer/producer.go:60-128 | no error if and only if the envelope is valid, routable and encodable, the producer open, and the broker accepts |
| `Publishing.ResultsExactly` | producer/producer.go:60-128 | each error exactly when its check is the first that fails, for `Publish` and for `PublishToTopic` |
| `Publishing.RecordCarries` | producer/producer.go:95-104 | the record field by field, headers included |
| `Publishing.Producer.PublishToTopic` | producer/producer.go:74-128 | sent exactly when open, valid, encodable and accepted; the one record, on the given topic |
| `Publishing.Producer.Publish` | producer/producer.go:60-71 | sent exactly when also routable; the record goes to the topic of the event's type |
| `Publishing.Producer.PublishBatch` | producer/producer.go:131-143 | a length mismatch sends nothing; otherwise exactly the items before the first failure are sent, in order, and its index is reported |
| `Publishing.Producer.Close` | producer/producer.go:146-161 | the client is closed by the first call only, whose result is the client's error |
| `PublishingLifecycle.BatchSendsAPrefix` | producer/producer.go:131-143 | in every interleaving a batch's accepted records are an in-order prefix, each valid and on the topic of its type; an error at index i means exactly i were accepted |
| `PublishingLifecycle.BatchStopsRightly` | producer/producer.go:131-143 | in every interleaving a batch stops only at an item that cannot be sent, that the broker refused, or that found the flag set |
| `PublishingLifecycle.ClosingStopsBatches` | producer/producer.go:146-161 | closed at most once, and each batch calls the broker at most once after that, accepted or refused |
| `PublishingLifecycle.AtMostOneAfterClose` | producer/producer.go:75-80 | no continuation of a closed run calls the broker twice for a batch, and it gets at most that one further item accepted |
| `PublishingLifecycle.TurnMatchesPublish` | producer/producer.go:136-140 | the two steps of a turn do what `Publish` does when nobody closes in between |
| `GoStrings.RenderIntInjective` | consumer/group_health.go:302 | different integers render differently |
| `Lag.WrapPeriodic` | consumer/group_health.go:304 | 64-bit wrap-around: the identity in range, and of period 2^64 |
| `Lag.WrapAdd` | consumer/group_health.go:304 | wrapping at each addition or once at the end is the same, so the running sum is order-independent |
| `Lag.KeyInjective` | consumer/group_health.go:302 | topic[partition] keys are injective over all topic strings and partitions |
| `Lag.KeyLayout` | consumer/group_health.go:302 | a key is the topic and, in brackets, the partition as a decimal number |
| `Lag.PartitionLagExactly` | consumer/group_health.go:294-300 | the lag of a readable partition from newest and committed offset: all with none committed, none at or past the newest, and otherwise the difference |
| `Lag.LagFitsInt64` | consumer/group_health.go:294-307 | with non-negative newest offsets whose sum fits 64 bits the total does not wrap, and maximum <= total <= sum of newest |
| `Lag.LagInRange` | consumer/group_health.go:294-300 | with a non-negative newest offset the subtraction does not wrap and the lag is at most that offset |
| `Lag.RunningTotalFits` | consumer/group_health.go:304 | under the same condition no running total, over any topics done and any prefix of the next one's partitions, leaves 0..2^63-1 |
| `Lag.LagAntitone` | consumer/group_health.go:294-307 | moving commits forward, also from none to some, raises no partition lag, total or maximum |
| `Lag.MapSumsToTotal` | consumer/group_health.go:302-307 | with no partition listed twice the map's values add up to the total |
| `GroupHealth.GroupHealthChecker.CalculateLag` | consumer/group_health.go:259-312 | whatever the map order: success exactly when every lookup succeeds, then total, maximum and map are those of the set of topics, each entry telling how far the committed offset is behind the newest; otherwise the error names a lookup that fails after the listings before it succeeded |
| `GroupHealth.GroupHealthChecker.ReadLag` | consumer/group_health.go:281-300 | one partition's lookups, the first that fails, and its lag from newest and committed offset |
| `GroupHealth.GroupHealthChecker.ListPartitions` | consumer/group_health.go:260-267 | the partitions of each configured topic, duplicates in the configuration being harmless |
| `GroupHealth.SummaryUnique` | consumer/group_health.go:279-309 | two summaries of the same cluster are equal, so iteration order cannot show |
| `GroupHealth.MapLosesNothing` | consumer/group_health.go:302-307 | a summary's map adds up to its total |
| `GroupHealth.GroupHealthChecker.CountAssignedPartitions` | consumer/group_health.go:237-251 | the number of assigned partitions over all members and topics, or zero if an assignment does not decode |
| `GroupHealth.AssignedCountsSlots` | consumer/group_health.go:237-251 | that number is the number of places in all partition lists of all topics of all members |
| `GroupHealth.NoneAssigned` | consumer/group_health.go:185-187 | that number is zero exactly when no member has a partition |
| `GroupHealth.GroupHealthChecker.EvaluateHealth` | consumer/group_health.go:176-218 | which verdict is given when, and the summary it carries |
| `GroupHealth.WithinThreshold` | consumer/group_health.go:213-217 | healthy under a threshold bounds every partition's lag by it |
| `GroupHealth.CommitsNeverDegrade` | consumer/group_health.go:213-217 | commits alone never turn a healthy verdict into another |

## Left out

- Sarama, brokers, the network and group membership: what they may do is environment steps and parameters. A send
  that is reported as failed is taken not to have been stored.
- The partition log is dense and nothing is deleted from it; sessions start at the committed offset, and at a fixed
  base when nothing is committed, so `OffsetReset` latest is not modelled.
- JSON: decoding and encoding are functions; where it matters they are assumed to round-trip. What JSON encoding alters
  is outside that assumption: strings that are not valid UTF-8, and raw payloads with white space, which the encoder
  compacts, or with `<`, `>` or `&`, which it escapes.
- Logging, tracing of durations, and contexts other than as a flag that stays set once set.
- Configuration defaults and validation, Sarama configuration, constructors and the `With...` copies of envelopes.
- Event payload structs, consumer group names, and the tables behind `Valid`, `All` and `PartitionKey`.
- `HandlerRegistry` other than as a map with a fallback; a handler registered as nil counts as none.
- Panics nothing recovers from (callback, replay handler, filter) end the process: a crash.
- Replay handlers and filters do not change the dead letter message they are given; consumer handlers may change the envelope, and that is modelled.
- The pipeline model's dead letter topic starts empty and is written by the modelled consumer's callback only.
- Handlers that keep and change an envelope after they have returned.
- `Check` and `describeGroup` (client calls and nil checks in front of `EvaluateHealth`), and the details map of a result.
- A member whose assignment is empty bytes: the client library's nil assignment is not modelled.
- Statistics are unbounded; a wrapped 64-bit counter is not modelled.
- ReplayerLifecycle.ReplayWithFilter: it runs against a given sequence of turns, since Go's loop need not end; that concurrent callers interleave is left to the interleaved model.
- ConsumerLifecycle.Consumer.Start: likewise.
- ConsumerLifecycle.Consumer.Close: the wait is a loop that lets the registered calls leave; when it can pass is `ConsumerLifecycle.WaitNeedsContexts`.
- Replayers.Replayer.Close: the wait is a loop that lets the registered loops leave; that it is released at all is `ReplayerLifecycle.WaitIsReleased` and `ReplayerLifecycle.LoopStepsBounded`, for runs in which `Consume` returns.
- Publishing.Producer.PublishBatch: run alone, so the flag does not change during a batch; `PublishingLifecycle` covers the interleavings, for batches whose lengths match.
- GroupHealth.GroupHealthChecker.CalculateLag: lookups are stable while it runs, as they are functions of topic and partition.
- Reuse rules of Go's `WaitGroup` (an `Add` from zero concurrent with `Wait` in `Consumer`): only its counter is modelled.
