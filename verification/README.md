# Delivery guarantees of the mail service

This project models how the mail service receives commands and answers them, and proves what it
guarantees. It has two state machines and the smaller pieces they rest on.

**Delivery through Kafka and Redis** (`Delivery*.dfy`, `Consumer*.dfy`, `KafkaConsumer.dfy`, `ClaimStore.dfy`). Partitions are
logs with a committed offset; any number of consumers fetch, claim, handle, retry, dead-letter and
commit. A step is one effect: of the surroundings, of the session loop, of the claim around the
handler, or of the handler. Every effect can fail, a failed effect may still have taken place, and a
consumer can die between any two effects. `Delivery.Replay` turns a sequence of steps into a state; all
guarantees are about every such sequence. Each state also records what has happened: which records were
settled (handled with nil, or queued for retry), how often the mail of an event was taken, and the
faults the guarantees are conditional on:

- `faults`: after the mail of an event was taken, its result was not published, or its claim was not
  completed, or its consumer died;
- `overruns`: a claim expired while its own handler was still running;
- `lapses`: a claim was left behind (release failed, a failed claim had set its key, the holder died);
- `split`: a partition was taken from a reader that had one of its records in hand.

**The pull-consumer runtime for NATS** (`PullRuntime*.dfy`, `PullSchedule.dfy`, `PullGoroutines.dfy`, `PullPlan.dfy`). One fetcher
and any number of workers interleave over a bounded channel, a wait group and a cancellable context,
where a `select` may take either branch that is ready.

Both machines come with the loops of the service written as loops (`KafkaConsumer`, `PullGoroutines`).
There every operation on the outside world is a call that records a step, and lets the others move in
between. What the others do and how effects turn out is prescribed by an arbitrary finite script.
A script determines a run (`ConsumerSchedule.SessionOf`, `ConsumerSupervision.Supervised`,
`PullSchedule.Run`): in each turn the others take their steps, and then the effect that is due where the
consumer or goroutine is turns out as prescribed, or by a fixed fallback. The loops are proved to produce
exactly that run, whatever they look like inside, and the runs are proved to be exactly those of the state
machine in which the consumer does not die (`ConsumerSessions.SessionsAreRuns`). So a loop that skipped a
commit, died, made up an outcome, retried past the limit or did not reconnect would not verify, and the
theorems hold for the runs of the loops.

Contracts of the libraries: the event of a record is a function of the record; queueing for retry adds
a copy with the given attempt; a copy is written to the topic again at least once; a new reader starts
at the committed offset; a commit from a reader that has lost its partition may be accepted; Redis
keys disappear when their time is over; a failed NATS fetch yields no messages, a successful one at
most as many as were asked for.

Observations that the proofs made precise:

- A mail that the sender refuses is answered with a "failed" result and its event is then done: it is
  not retried (`MailHandler.OneResultPerCompletedCommand`).
- A record that does not unwrap is dead-lettered and never committed past, so it blocks its partition
  for ever (`DeliveryCommits.MalformedRecordBlocks`).
- The committed offset can go back, but only when the commit of a reader that has lost its partition is
  accepted (`DeliveryCommits.OffsetGoesBackIff`, `DeliveryExamples.RevokedReaderCommitsBack`).
- A dead holder, a failed release, a failed claim that has set its key, or two readers of one partition
  can lose an event; each of the four is shown by a run in which nothing else goes wrong.
- An event can only get lost at a commit, and only after one of these (`DeliveryLoss.LosesIff`,
  `DeliveryLoss.LossNeedsFault`).
- An overrun claim does not lose events; it can only lead to another mail.
- The repository's own README says that NATS delivers the commands. The wiring uses Kafka; the model
  follows the wiring and treats the NATS runtime as a component of its own.

## Model

| member | source | states |
|---|---|---|
| DeliveryNoLoss.NoEventIsLost | internal/fx/messaging.go:80-101 | In every reachable state without split partitions, each produced event without a lapse has had a handler run return nil, or has a copy in the retry queue, or has an uncommitted record; refused claims are committed, retried records are skipped, claims may overrun |
| DeliveryLoss.LosesIff | internal/presentation/event_broker/kafka/broker.go:72-115 | A step takes the last trace of an event exactly if it is an accepted commit at or past all its uncommitted records while no copy waits and no handler run of it has returned nil |
| DeliveryLoss.LossNeedsFault | internal/fx/messaging.go:80-101 | Such a commit is possible only after a lapse of the event or a split partition |
| DeliveryLoss.CountsArePrecise | internal/fx/messaging.go:86-99 | Lapses, faults, overruns and splits count exactly the steps they stand for, each once |
| DeliveryNoLoss.RefusedIsSafe | internal/fx/messaging.go:86-89 | When a claim is refused and reported as success, another consumer still has a record of the event in hand at its frontier |
| DeliveryNoLoss.EnqueueSafe | internal/presentation/event_broker/kafka/broker.go:86-94 | Skipping a record without committing it keeps every event covered, whether or not queueing succeeds |
| DeliveryExamples.DeadHolderLosesEvent | internal/fx/messaging.go:86-93 | A run whose only fault is the death of a claim holder loses the event |
| DeliveryExamples.FailedReleaseLosesEvent | internal/fx/messaging.go:90-93 | A run whose only fault is an ignored failure of Release loses the event |
| DeliveryExamples.FailedClaimThatSetsKeyLosesEvent | internal/fx/messaging.go:65-67 | A run whose only fault is a claim that fails after setting its key loses the event |
| DeliveryExamples.TwoReadersLoseEvent | internal/presentation/event_broker/kafka/broker.go:67-93 | With two readers of one partition an event is lost although no claim was left behind |
| DeliveryClaims.MailsAreBounded | internal/fx/messaging.go:85-99 | In every run the mail of an event is taken at most 1 + faults + overruns times; commit failures, reconnects, duplicates, retries and lapses do not count |
| DeliveryClaims.OwnActBudget | internal/presentation/event_broker/kafka/mail_command_subscriber.go:53-65 | No effect of the claiming handler on its event raises mails taken plus mails still possible by more than it raises the faults |
| DeliveryExamples.LostResultSendsTwice | internal/presentation/event_broker/kafka/mail_command_subscriber.go:61-65 | The bound is met: a run with one unpublished result and no overrun takes the mail twice |
| DeliveryExamples.ExpiredClaimSendsTwice | internal/fx/messaging.go:65-67 | So is its other term: a run with one claim that expires under its handler, and no fault, takes the mail twice |
| DeliveryClaims.AtMostOneHandler | internal/fx/messaging.go:65-73 | While no claim of an event has overrun, at most one consumer is between claim and completion, backed by its own unexpired key, and never when the key says done |
| DeliveryClaims.DoneIsFinal | internal/fx/messaging.go:68-70 | While no claim has overrun, a done event stays done, its handler never runs again and no mail is taken for it, in spite of the unconditional Set and Del |
| DeliveryClaims.DoneStep | internal/fx/messaging.go:68-73 | The same for a single step |
| DeliveryCommits.CommittedWasSettled | internal/presentation/event_broker/kafka/broker.go:72-115 | In every run each record below a committed offset was handled with nil or queued for retry at some step of that run |
| DeliveryCommits.SettledIffInRun | internal/presentation/event_broker/kafka/broker.go:83-94 | A record counts as settled exactly if some step of the run returned nil for it or queued it |
| DeliveryCommits.OffsetsNeverGoBack | internal/presentation/event_broker/kafka/broker.go:112-114 | Between any two points of a run logs and history grow, and the committed offset of a partition that was not split does not go back |
| DeliveryCommits.OffsetGoesBackIff | internal/presentation/event_broker/kafka/broker.go:112-114 | A step lowers a committed offset exactly if it is an accepted commit of a record at least two below it; nothing but a commit moves an offset |
| DeliveryExamples.RevokedReaderCommitsBack | internal/presentation/event_broker/kafka/broker.go:112-114 | A run without lapses in which such a commit moves the offset from 2 to 1 |
| DeliveryCommits.UnsettledIsNotCommitted | internal/presentation/event_broker/kafka/broker.go:77-96 | A record that was neither handled with nil nor queued, such as one that was only dead-lettered, is at or above the committed offset; one that does not unwrap always is |
| DeliveryCommits.MalformedRecordBlocks | internal/presentation/event_broker/kafka/broker.go:78-81 | Once a record that does not unwrap is in a log, the committed offset stays at or below it in every continuation of the run |
| DeliveryRetries.QueuedAttempts | internal/presentation/event_broker/kafka/broker.go:84-89 | Every attempt number in the retry queue lies between 2 and the maximum |
| DeliveryRetries.FetchRemaining | internal/presentation/event_broker/kafka/broker.go:72-95 | Fetching a record of an event lowers the event's remaining attempts by exactly one |
| DeliveryRetries.EnqueueRemaining | internal/presentation/event_broker/kafka/broker.go:86-94 | Queueing for retry never raises the remaining attempts |
| DeliveryRetries.FetchesAreBounded | internal/presentation/event_broker/kafka/broker.go:72-115 | While no partition is reassigned, no new record of the event arrives and each copy is republished once, the event is fetched at most as often as it has remaining attempts |
| DeliveryRetries.FreshEventIsHandledAtMostMaxTimes | internal/presentation/event_broker/kafka/broker.go:84-95 | In such a stretch a new event is fetched at most MaxAttempts times |
| KafkaConsumer.RunPullConsumer | internal/presentation/event_broker/kafka/broker.go:63-116 | For any interference and outcomes the session loop takes exactly the turns of a session and leaves the cluster where they lead; the reader is closed at the end, and nil is returned exactly after a successful dead-lettering |
| KafkaConsumer.DeadLetterMessage | internal/presentation/event_broker/kafka/broker.go:129-144 | Takes the one turn that writes the record in hand to the dead-letter topic and ends the session, reporting failure exactly if the write failed |
| KafkaConsumer.HandleWithClaim | internal/fx/messaging.go:80-101 | The claim wrapper takes exactly the turns from the claim to where the record is handled or has failed; it returns nil exactly when the record is handled or its claim was refused |
| KafkaConsumer.Handle | internal/presentation/event_broker/kafka/mail_command_subscriber.go:44-66 | The handler takes exactly the turns from its start to a published result or an error; nil means that its last step published a result |
| KafkaConsumer.SubscribeMailCommands | internal/fx/presentation.go:53-79 | The reconnect loop takes exactly the sessions and waits of the supervised run and ends only when the service is stopped; it opens the reader once more than it waits, and between two openings at least the wait of the closed form passes |
| ConsumerSchedule.OwnStepsAreDue | internal/presentation/event_broker/kafka/broker.go:72-115 | Where a consumer is with its record leaves it one due effect: every step it can take is an outcome of that effect, or its death |
| ConsumerSessions.SessionsAreRuns | internal/presentation/event_broker/kafka/broker.go:63-116 | The sessions that scripts produce are exactly the runs of the protocol from the opening of the reader to its closing in which the consumer does not die |
| ConsumerSessions.RecordsAreDealtWith | internal/presentation/event_broker/kafka/broker.go:77-115 | In a session the consumer does not die, and its next step after each of its steps fits: a handled record is committed, a retryable failure below the maximum queued, any other failure or a record that does not unwrap dead-lettered, a claim completed or released |
| ConsumerSessions.UndisturbedRecordIsCommitted | internal/presentation/event_broker/kafka/broker.go:83-114 | With successful outcomes an unclaimed record has its mail sent once and its event done, and the offset after it is committed at the end of the session |
| ConsumerSupervision.SupervisedOpens | internal/fx/presentation.go:55-78 | The supervised run ends only when the service is stopped, opens the reader at least once unless stopped from the start, and lets at least the due wait pass before each further opening |
| ConsumerSupervision.EverySessionIsFollowed | internal/fx/presentation.go:56-78 | After any session, however it ended, the loop waits and goes on with what is prescribed next |
| ConsumerSupervision.ReconnectsEachTime | internal/fx/presentation.go:55-78 | n sessions that cannot fetch anything mean that the reader is opened n times |
| KafkaConsumer.Service | internal/fx/presentation.go:47-80 | Mail bound and no-loss theorem for the state in which the service leaves the cluster, for every script |
| ClaimStore.RedisEventStore.Claim | internal/fx/messaging.go:65-67 | Succeeds exactly when no live key is present, and then sets mail:processed_events:<id> to "processing" for 900000 ms |
| ClaimStore.RedisEventStore.Complete | internal/fx/messaging.go:68-70 | Sets the key to done for ever, whoever owns it |
| ClaimStore.RedisEventStore.Release | internal/fx/messaging.go:71-73 | Deletes the key, whoever owns it |
| ClaimStore.ClaimsAreRefusedWhilePresent | internal/fx/messaging.go:65-73 | A claim refuses all others exactly until its 900000 ms are over, done refuses for ever, release frees |
| HandlerProtocol.HandlerFollowsProtocol | internal/presentation/event_broker/kafka/mail_command_subscriber.go:44-66 | The handler on real commands takes the protocol's steps in order; the protocol counts a mail exactly when the sender took one and a fault exactly when it was taken without a result |
| MailHandler.OneResultPerCompletedCommand | internal/presentation/event_broker/kafka/mail_command_subscriber.go:44-66 | Nil means exactly one result, whose status says whether the mail was taken and whose identifying fields are the command's on both paths; an error means no result |
| MailHandler.ErrorNamesItsCause | internal/presentation/event_broker/kafka/mail_command_subscriber.go:45-65 | A returned error is the wrapped decoding error, the encoding error of the result or the error of the broker, whichever comes first |
| MailHandler.TypeRefusedIff | internal/application/service.go:46-48 | The invalid-type error comes exactly from a type that is empty once trimmed, or from rendering or sending; in the first case no mail is sent |
| MailHandler.OrdinaryTypePasses | internal/application/service.go:46-87 | A type with a letter, digit or underscore is never refused for its type |
| MailHandler.BlankTypeIsRefused | internal/application/service.go:46-48 | The empty type and one made of blanks, tabs and line ends always are |
| Strings.TrimParts | internal/application/service.go:46 | Trimming takes white space off both ends, nothing else, and all of it |
| MailHandler.ResultTellsObstacle | internal/application/service.go:46-87 | A published result is a success exactly if nothing kept the mail back, and then the rendered email went to the command's recipient; otherwise it gives the reason of the most specific sentinel in the first obstacle: type, address, rendering, sender, in this order |
| MailHandler.MailWithoutResult | internal/presentation/event_broker/kafka/mail_command_subscriber.go:53-65 | Exactly when a mail is taken and no result is published |
| MailHandler.MailCommandSubscriber.Handle | internal/presentation/event_broker/kafka/mail_command_subscriber.go:44-66 | The early-return code has the specified outcome, mail and results |
| MailHandler.MailService.Send | internal/application/service.go:38-88 | The early-return code has the specified outcome, and the sender gets the rendered email with the recipient filled in |
| MailErrors.ReasonIffFirstReached | internal/presentation/event_broker/kafka/error_reason.go:20-41 | The reason is the one of the highest-priority sentinel that some unwrapping path leads to, for all wrap and join trees, in both directions |
| MailErrors.IsIffReaches | internal/presentation/event_broker/kafka/error_reason.go:20-35 | errors.Is finds a sentinel exactly if an unwrapping path leads to it |
| MailErrors.InternalIffNotDomain | internal/application/service.go:92-100 | The internal reason is given exactly when the error is not a domain error, and the "failed to process" arm is never taken |
| MailErrors.ReasonSurvivesWrapping | internal/presentation/event_broker/kafka/error_reason.go:20-41 | Any number of further wrappings keeps the reason and the domain classification |
| MailErrors.ReasonOfJoin | internal/presentation/event_broker/kafka/error_reason.go:20-41 | A joined error has the highest-priority reason among its parts |
| RetryHeaders.RetryAttempt | internal/presentation/event_broker/kafka/broker.go:118-127 | Returns the number of the first header that states a positive attempt in range, or 1 |
| RetryHeaders.AttemptHeader | internal/presentation/event_broker/kafka/broker.go:118-127 | Only the header x-ofm-retry-attempt counts; a decimal value with an optional plus sign is read if it is positive and fits into 64 bits |
| RetryHeaders.OtherTextStatesNothing | internal/presentation/event_broker/kafka/broker.go:118-127 | A value that is no number states nothing |
| RetryHeaders.WrittenAttemptIsReadBack | internal/presentation/event_broker/kafka/broker.go:118-127 | A decimal attempt written into a header is read back exactly when no earlier header states another one |
| Backoff.WaitClosedForm | internal/fx/presentation.go:54-77 | Wait k is min(100 * 2^k, 30000) ms |
| Backoff.NamedWaits | internal/fx/presentation.go:54-77 | The first wait is 100 ms, the ninth 25600 ms and all later ones 30000 ms |
| Backoff.WaitsNeverShrink | internal/fx/presentation.go:72-77 | Waits are non-decreasing and at most 30 s |
| Backoff.TotalWaitClosedForm | internal/fx/presentation.go:54-77 | For n >= 9 the first n waits take 51100 + 30000 (n - 9) ms |
| Backoff.ReconnectsWithinWindow | internal/fx/presentation.go:54-77 | Exactly how many waits fit into a window that begins at start-up |
| MailMessage.MessageRoundTrip | pkg/mailer/smtp/smtp.go:169-179 | Splitting a built message at its first empty line gives back the five header lines and the body, exactly if no header value contains a line end |
| MailMessage.FieldsAreReadBack | pkg/mailer/smtp/smtp.go:169-179 | A reader that looks fields up by name finds sender, recipient, subject, MIME version and content type, and the body |
| MailMessage.MessagesAreDistinct | pkg/mailer/smtp/smtp.go:169-179 | For one sender the message determines recipient, subject and body |
| PullPlan.ValidateReportsFirst | internal/presentation/event_broker/nats/pull_consumer_validator.go:11-55 | Validation reports a complaint exactly if it is the first founded one of the list |
| PullPlan.TiersPartitionBacklog | internal/presentation/event_broker/nats/broker.go:138-149 | For a validated adaptive configuration the tiers are three rising intervals of the backlog; only the low one can be empty, exactly when the medium one begins at 0 |
| PullPlan.LastAnswerDecides | internal/presentation/event_broker/nats/pull_consumer_runtime.go:173-194 | The plan in force is the one resolved at the last due and answered look, or the base plan if there was none |
| PullPlan.LastCheckIsLastDue | internal/presentation/event_broker/nats/pull_consumer_runtime.go:173-178 | The recorded last check is the time of the last due look, answered or not, where being due is defined by the times alone |
| PullPlan.DueIffLate | internal/presentation/event_broker/nats/pull_consumer_runtime.go:173-178 | A look is due exactly if it comes at least the check interval after the last due one |
| PullPlan.DueLooksAreApart | internal/presentation/event_broker/nats/pull_consumer_runtime.go:173-178 | Any two due looks are at least the check interval apart |
| PullPlan.PendingCounts | internal/presentation/event_broker/nats/pull_consumer_runtime.go:184-186 | A pending count below 2^63 is resolved as itself; a larger one turns negative and gives the low tier |
| PullPlan.PlanAlwaysConfigured | internal/presentation/event_broker/nats/pull_consumer_runtime.go:128-140 | After any sequence of looks the plan is a configured one with positive batch and wait |
| PullPlan.PullConsumerFetchState.MaybeUpdateAdaptivePlan | internal/presentation/event_broker/nats/pull_consumer_runtime.go:173-194 | The in-place update with its early returns is the specified update |
| PullRuntime.ChannelSafety | internal/presentation/event_broker/nats/pull_consumer_runtime.go:70-126 | The wait group counts unreturned workers, the channel is bounded, closed once and only after all of them returned, never received from when closed, never sent to when closed |
| PullRuntime.DeadlockFreedom | internal/presentation/event_broker/nats/pull_consumer_runtime.go:82-151 | Every reachable state of a validated runtime that is not over has a step other than the cancellation |
| PullRuntime.FullWithoutWorkers | internal/presentation/event_broker/nats/pull_consumer_runtime.go:224-234 | A full channel without workers exists only after cancellation, and then the fetcher can drop |
| PullRuntimeRuns.SequenceConservation | internal/presentation/event_broker/nats/pull_consumer_runtime.go:124-151 | Received, queued, undispatched and dropped messages in this order are the fetched ones in fetch order |
| PullRuntimeRuns.OneWorkerKeepsOrder | internal/presentation/event_broker/nats/pull_consumer_runtime.go:82-122 | A single worker settles messages in fetch order |
| PullRuntimeRuns.Settlements | internal/presentation/event_broker/nats/pull_consumer_runtime.go:85-120 | Each message gets at most one Ack or Nak, an Ack only after its handler returned nil, and received = acks + naks + in hand, a failed Ack counted as nak |
| PullRuntimeRuns.StepShrinks | internal/presentation/event_broker/nats/pull_consumer_runtime.go:82-151 | After cancellation every step lowers the measure, whichever branch a select takes |
| PullRuntimeRuns.ShutdownIsBounded | internal/presentation/event_broker/nats/pull_consumer_runtime.go:82-151 | After cancellation a run has at most as many steps as the measure says |
| PullRuntimeRuns.MeasureBound | internal/presentation/event_broker/nats/pull_consumer_runtime.go:124-151 | The measure is bounded by batch size, queue size and worker count |
| PullRuntimeRuns.ShutdownCompletes | internal/presentation/event_broker/nats/pull_consumer_runtime.go:124-126 | A cancelled run that cannot go on has closed the channel, all workers have returned, and each fetched message was settled, left in the channel or dropped |
| PullGoroutines.RunWorker | internal/presentation/event_broker/nats/pull_consumer_runtime.go:82-122 | For any interference and outcomes the worker loop takes exactly the turns that are due, and returns only after cancellation |
| PullGoroutines.RunFetcher | internal/presentation/event_broker/nats/pull_consumer_runtime.go:124-151 | The fetcher loop takes exactly the turns that are due, keeps its plan a configured one, and returns only when everything is over |
| PullGoroutines.DispatchFetchedMessages | internal/presentation/event_broker/nats/pull_consumer_runtime.go:224-234 | Takes the turns that send the batch one by one, and stops early only after cancellation |
| PullGoroutines.WaitAndClose | internal/presentation/event_broker/nats/pull_consumer_runtime.go:124-126 | Takes the turn that closes the channel, when every worker has returned |
| PullGoroutines.Start | internal/presentation/event_broker/nats/pull_consumer_runtime.go:70-80 | Takes one step per worker, counting each in before it runs, and creates the fetcher last |
| PullSchedule.OwnStepsBelong | internal/presentation/event_broker/nats/pull_consumer_runtime.go:82-151 | Where a goroutine is determines the operation it can take part in; it has a possible step exactly unless it is blocked |
| PullSchedule.RunIsPlayed | internal/presentation/event_broker/nats/pull_consumer_runtime.go:82-151 | Every run of the transition system up to a pause of a goroutine comes about when it is prescribed |
| PullGoroutines.PullConsumerRuntime.constructor | internal/presentation/event_broker/nats/broker.go:94-114 | A runtime exists only for a validated configuration |

## Left out

- Kafka, Redis, NATS, SMTP and TLS themselves: they are steps of the surroundings with the contracts above.
- The shared library for envelopes, idempotency, retry queue and circuit breaker is not part of this model; only the contracts above are used, and the sender is any sender.
- A claiming broker without a store, which calls the handler directly, is not part of the delivery machine; the live wiring always has a store.
- KafkaConsumer.RunPullConsumer: the loop is run against finite scripts, so a session that never ends is covered by its finite prefixes; the death of the consumer itself is a step of the state machine, not of the method.
- KafkaConsumer.Handle: decoding is merged with sending into one effect; on real commands the handler is MailHandler, and HandlerProtocol connects the two.
- PullGoroutines.RunWorker: a worker that is blocked or at the top of its loop at the end of the script has not returned; that it can always go on is DeadlockFreedom.
- PullGoroutines.Start: the method creates the goroutines without interference; workers that run before the last one is created are part of PullRuntime.
- DeliveryRetries.FetchesAreBounded: a reassigned partition starts again at its committed offset, which makes skipped records outstanding again, so the bound is per stretch without reassignment.
- PullPlan.PullConsumerFetchState.MaybeUpdateAdaptivePlan: the two readings of the clock within one look are taken as one.
- The second error block of the Kafka session loop cannot be reached and is not modelled.
- Metrics other than the Ack and Nak counters, logging, tracing, configuration loading and dependency wiring.
- Template registration and rendering, address parsing and JSON: arbitrary functions.
- The SMTP conversation around the printed message.
- The NATS mapper, error resolver and subscriber, which repeat the Kafka ones.
