# The content-moderation pipeline, verified

Posts are created, moderated by an AI worker and announced to readers through a transactional outbox,
RabbitMQ, Redis and Kafka. This project models that pipeline in Dafny and proves what it keeps under
every interleaving of its parts, with crashes, rollbacks, lost deliveries, duplicates and late replies as
ordinary steps.

How the modules fit together:

| module | what it models |
|---|---|
| `Messages` | envelopes, payloads, the relay's routing table, event versions |
| `Outbox`, `OutboxDelivery`, `OutboxProgress`, `OutboxRelay`, `RelayEffects` | the outbox, N competing relay polls, the relay class, and what one poll does |
| `Content`, `PostHistory`, `ContentService` | posts, outbox and processed messages of the content service, the same read off the bare history, and its classes |
| `Pipeline`, `PublicReads` | the whole chain from a create to a socket, and what readers are shown |
| `QueueTopology`, `RetryCycle`, `RabbitHandler` | declared queues, the retry cycle with its DLQ, the consumer callback |
| `WorkerClaims`, `ClaimFates`, `ClaimHazards`, `ClaimTiming`, `ModerationWorker` | the Redis claim on top of the retry cycle, what breaking it costs, one run per way to break it, its timing, the handler |
| `Reconnect`, `ReconnectRuns`, `RabbitConnection`, `RabbitPublisher` | the connection manager with its timer, and the publisher |
| `Rollup`, `RollupProgress`, `AnalyticsService`, `EndToEnd` | the Kafka consumer group and the trend table, how far it gets, and its link to the verdicts |
| `RateLimit` | the fixed-window limiter |
| `VerdictParser` | reading the classifier's answer |
| `Trace`, `TraceMarkers`, `LatencyChart`, `TrendCharts`, `TrendConservation` | the dashboard's derivations, and what they preserve |
| `Notifications` | the socket registry, the gateway and the push |
| `Prelude` | options and finite sums |

A protocol is a labelled machine: `Can` says when a step is enabled, `Do` what it does, `Admissible` and
`Exec` what a run is. A step label carries everything the scheduler, the brokers, the databases and the
clock decide, so a theorem over all admissible runs is a theorem over all of their behaviours. Each
component that changes fields step by step is also a class, and its methods are proved to be steps or runs
of the machine.

What the proofs found out:

- A job vanishes not only when the worker crashes or its delivery is lost between claim and publish, or
  when the release fails. It also vanishes when Redis sets the claim but the reply is lost, because the
  error is thrown before the `try`, and when a run claims only after its delivery was lost. A step breaks
  the no-loss invariant if and only if it is one of these (`BreakIsExact`), and then the job can be lost
  if and only if every copy of it was handled or has a delivery left (`BreakIsFatal`). Since a nack can
  itself be lost with its connection, even a copy on its last delivery can be lost this way. A crash, a
  failed release and a lost claim reply need nothing else to go wrong; after a lost delivery or a late
  claim the run that was left behind has to fail as well (`StraysLeft`, `EveryHazardLosesJobs`).
- The body `null` parses, and then both the handler and the error log of the callback throw on it, so the
  delivery is neither acked nor nacked. Every other message can come to rest; a null body never does, and
  never reaches the DLQ (`RestsUnlessNull`, `NullIsStranded`). On Kafka the same body, and a supported event
  with an invalid payload, hold their partition up, unless a restart before the first commit jumps over
  them, and nothing else does (`ReachesEndUnlessBlocked`, `BlockedForGood`); what the relay publishes never
  does (`EveryVerdictCanCount`).
- A consumer that the broker cancels, for instance because its queue was deleted as the deployment note
  in `libs/shared-messaging/src/lib/queue-topology.ts:28-30` asks, is not replaced: the channel stays open
  and nothing reconnects. This is the one silent zombie there is (`NoSilentZombie`,
  `CancellationSilences`, `SilentForGood`).
- An edit keeps a post visible. What readers see was approved as it stands exactly while the content is
  the one the post was created with (`ApprovedExactlyAsCreated`, `EditedIsVisible`).
- The version check looks event types up in an object literal, so names that every object inherits, such
  as `constructor`, pass it (`libs/shared-dtos/src/lib/event-versions.ts:33-38`). `SupportedEventVersion`
  says so, and `UnsupportedNeverVanishes` is about the other names. In the relay's route table these names
  give a route without a broker; its publish throws inside the `try`, which counts one failure, as for an
  event type without a route.
- A restart of the analytics group before its first commit begins at the end of the log. If a record
  before that was not processed, it is not counted unless it is published again (`SkipIsExact`, `SkipLeavesBehind`,
  `OutOfReachStays`); for a new group one failure of the first event is enough (`FirstFailureIsLost`).
- The limiter's own comment allows a burst of twice the limit. The exact bound is one less, and it holds
  even when a PEXPIRE never lands.
- The progress bound of the relay holds for any number of relays, and each rolled back batch costs at most
  one further poll.
- A socket whose token names an empty user id would stay registered after it disconnects
  (`RegistryIsHistory`), and receive nothing (`InboxIsHistory`). The gateway's session guard refuses such
  users (`apps/api-gateway/src/app/auth/session.guard.ts:8`), so it never mints the token.
- A correlation id that names a broker confuses the trace: a relay line for RabbitMQ whose id contains
  `kafka` counts for the Kafka stage too (`MarkersAreRecognised`).
- The latencies of a trace add up to the time from the first reached stage to the last one if and only
  if the stages start in pipeline order (`LatenciesCoverTheSpan`).
- A `consume()` that overlaps the replay of a reconnect ends with two consumers, and nothing else does
  (`ConsumersExact`, `OverlapDoubles`). If the broker cancels one of the two, there is one each again, so
  the exact condition compares cancellations with overlaps (`OneConsumerPerSubscription`).

What is assumed:

- Database transactions are atomic with row locks and SKIP LOCKED. Redis INCR and SET NX are atomic. A
  queue counts deaths per (queue, reason). One channel keeps the order of its commands.
- A resolved publish was accepted by the broker. The RabbitMQ channel uses no confirms, so after a
  connection dies this is more than the broker promises.
- `Pipeline` lets a broker redeliver any envelope it ever accepted, at any later time, so its theorems
  cover more behaviours than the brokers have. `RetryCycle` and `WorkerClaims` keep exact account of the
  copies instead.
- `Reconnect.Fire`: a dead connection's pending calls have rejected before the 5 s delay is over.
- `ClaimTiming`: a run finishes within the claim's TTL, its done mark succeeds, and a rejected publish
  delivers nothing.
- `Outbox.Late`: once some poll was rolled back, a publish it left behind may still reach its broker, for
  any row with a route.
- The moment a request is admitted is the moment Redis executes its INCR.
- Identifiers minted by the database or `randomUUID` are parameters that are new where they are used.

Timestamps of log lines are modelled as the instants they denote, and dates are compared character by
character; for ISO 8601 strings in UTC that is what `localeCompare` gives. Sums and rates are exact, where
JavaScript rounds to doubles.

## Model

| member | source | states |
|---|---|---|
| Outbox.StepKeepsInv | apps/content-service/src/app/outbox/outbox-relay.service.ts:54-137 | Every step of every relay keeps: row locks disjoint, claimed rows unchanged in the database, each buffered or committed mark backed by a resolved publish, `attempts` equal to the committed failures since the last reset. |
| Outbox.RunKeepsInv | apps/content-service/src/app/outbox/outbox-relay.service.ts:41-115 | So does every run of any number of interleaved polls. |
| OutboxDelivery.RelayGuarantees | apps/content-service/src/app/outbox/outbox-relay.service.ts:75-110 | In every reachable state a committed `publishedAt` means that a publish of exactly this envelope to the broker and destination of its event type resolved; `attempts` lost no update although it is written as an absolute value, and is at most MAX_ATTEMPTS; no row is claimed by two live transactions; claimed rows are eligible. |
| OutboxDelivery.RowsSplit | apps/content-service/src/app/outbox/outbox-relay.service.ts:65-73 | Every row is exactly one of published, eligible and quarantined; a quarantined row failed exactly MAX_ATTEMPTS committed times since its last reset. |
| OutboxDelivery.RollbackReleases | apps/content-service/src/app/outbox/outbox-relay.service.ts:43-51 | A rollback loses marks only: rows, failure counts and the brokers' log stay, and the claimed rows are unlocked and eligible again. |
| OutboxDelivery.AtMostOnce | apps/content-service/src/app/outbox/outbox-relay.service.ts:54-60 | If no batch rolls back and no rejected publish was delivered after all, each row is delivered at most once, and exactly once if marked. |
| OutboxProgress.ProgressBound | apps/content-service/src/app/outbox/outbox-relay.service.ts:65-73 | Over every run that passes an eligible, unlocked row over, with k eligible rows at or before it: BATCH_SIZE * claims < k * MAX_ATTEMPTS + BATCH_SIZE * rollbacks, however many rows ahead are unroutable or poison, and for any number of relays. |
| OutboxProgress.ClaimedInTime | apps/content-service/src/app/outbox/outbox.constants.ts:6 | With committed batches, no reset and no older insert, k * MAX_ATTEMPTS / BATCH_SIZE + 1 claims are enough to claim the row. |
| OutboxRelay.RowRun | apps/content-service/src/app/outbox/outbox-relay.service.ts:75-111 | One claimed row: which machine steps routing, publishing, marking and recording a failure are, under every outcome of the publish and of the update. |
| OutboxRelay.Relay.Poll | apps/content-service/src/app/outbox/outbox-relay.service.ts:41-115 | The imperative poll (claim, loop, commit or roll back) is a run of the machine from the old state to the new one, for every outcome at every row. |
| RelayEffects.PollEffect | apps/content-service/src/app/outbox/outbox-relay.service.ts:54-137 | The whole effect of a poll in plain terms: the brokers accept, in claim order and up to the first row update that fails, the full envelope of each routed row whose publish resolves or gets there although rejected; if every update and the commit go through, each claimed row is marked or has exactly one more attempt, and no other row changes; otherwise no row changes. |
| OutboxRelay.Relay.PublishBatch | apps/content-service/src/app/outbox/outbox-relay.service.ts:75-111 | The loop handles the claimed rows in claim order and stops at the first row update that fails; what it has done is a run of the machine. |
| OutboxRelay.Relay.HandleRow | apps/content-service/src/app/outbox/outbox-relay.service.ts:76-110 | One iteration reaches exactly the state of the closed form: the envelope of the row goes to its route, then the mark or the failure is buffered. |
| OutboxRelay.OutboxStore.ClaimRows | apps/content-service/src/app/outbox/outbox-relay.service.ts:65-73 | The claim locks the batch and returns the rows as committed. |
| Content.StepKeepsInv | apps/content-service/src/app/moderation/moderation-completed-consumer.service.ts:37-78 | Creates, edits, deletes, verdicts and relay steps keep: post statuses, job rows, processed ids, and one completed row per applied verdict. |
| Content.ExactlyOnceEffect | apps/content-service/src/app/moderation/moderation-completed-consumer.service.ts:37-78 | Over every run with arbitrarily redelivered verdicts: as many `moderation.completed` rows as processed messages, exactly one job row per post ever created, and every live post pending or with the verdict last applied. |
| Content.RedeliveryIsIdle | apps/content-service/src/app/moderation/moderation-completed-consumer.service.ts:72-78 | A verdict whose id was processed changes nothing, now or after any further run. |
| Content.DeletedStaysDeleted | apps/content-service/src/app/moderation/moderation-completed-consumer.service.ts:42-45 | A verdict for a removed post leaves no trace, in every continuation. |
| Content.VisibleContentIsModerated | apps/content-service/src/app/posts/posts.service.ts:44-57 | In every run in which its author does not edit a post, its content is the one its job carried to moderation. |
| Content.EditKeepsStatus | apps/content-service/src/app/posts/posts.service.ts:59-63 | An edit by the author of a visible post leaves it visible with the new content, which is the one its job asked to moderate exactly if the edit put the first content back. |
| PostHistory.PostsAreHistory | apps/content-service/src/app/posts/posts.service.ts:65-68 | After any run a post lives if and only if it was created and no removal that carries its creation's author came later; somebody else's removal never counts. |
| PostHistory.ContentIsHistory | apps/content-service/src/app/posts/posts.service.ts:59-63 | A live post says what its author wrote last: his last edit, or else the creation; nobody else's edit counts. |
| PostHistory.StatusIsHistory | apps/content-service/src/app/moderation/moderation-completed-consumer.service.ts:41-45 | A live post is approved or rejected exactly if the last result that took effect for it says so, and pending if none did. |
| PostHistory.OutcomeIsHistory | apps/content-service/src/app/moderation/moderation-completed-consumer.service.ts:37-78 | After any run the consumer takes a result for a duplicate exactly if it is readable and an applied one had its id; it throws exactly if the result is not readable, or its post does not live and no applied result had the id; otherwise the result takes effect. |
| PostHistory.AppliedIsHistory | apps/content-service/src/app/moderation/moderation-completed-consumer.service.ts:37-78 | The applied verdicts are, in order, exactly the readable ones of an id that none before had, for posts that lived at that moment. |
| ContentService.PostsService.CreatePost | apps/content-service/src/app/posts/posts.service.ts:16-42 | The transaction writes the post and its job row together and is the machine's Create step; the correlation id is the caller's or the minted one. |
| ContentService.PostsService.UpdatePost | apps/content-service/src/app/posts/posts.service.ts:59-63 | The post of this id gets the new content exactly if it is the author's; otherwise not found, and every post is unchanged. |
| ContentService.PostsService.RemovePost | apps/content-service/src/app/posts/posts.service.ts:65-68 | The post of this id, and no other, is deleted exactly if it is the author's; otherwise not found, and every post is unchanged. |
| ContentService.PostsService.FindOne | apps/content-service/src/app/posts/posts.service.ts:55-57 | Finds a post exactly if it exists and is approved. |
| ContentService.PostsService.FindAll | apps/content-service/src/app/posts/posts.service.ts:47-53 | A page holds approved posts only, none twice, as many as skip and take leave of all approved posts, and its k-th is the one that exactly skip + k approved posts precede in the order of the scan. |
| ContentService.ModerationCompletedConsumer.Handle | apps/content-service/src/app/moderation/moderation-completed-consumer.service.ts:30-79 | For every way its transaction can end, including a commit whose reply is lost: a duplicate exactly if an applied verdict had the id, an effect exactly on a live post with a new id (status set, id processed), and otherwise an error with nothing changed. |
| ContentService.ModerationCompletedConsumer.Transact | apps/content-service/src/app/moderation/moderation-completed-consumer.service.ts:40-66 | The three writes happen together, or none does: a taken id makes it a duplicate, a missing post aborts it. |
| Pipeline.EventsAreTraced | apps/content-service/src/app/moderation/moderation-completed-consumer.service.ts:40-66 | In every reachable world each event Kafka accepted is the outbox row of an applied verdict, which applied a result the AI worker computed for the job of a created post; every field of event and job is the one of that chain: ids, verdict, categories, author, type, version, source and time. |
| Pipeline.PairingIsOneToOne | apps/content-service/src/app/moderation/moderation-completed-consumer.service.ts:40-66 | Completed rows and processed results are paired one to one. |
| Pipeline.EventIdsAreConsistent | apps/content-service/src/app/outbox/outbox-relay.service.ts:86-94 | Two accepted Kafka envelopes with one id are equal, whatever was republished. |
| Pipeline.EmitsReachTheAuthor | apps/notification-service/src/app/notifications/moderation-push.service.ts:55-79 | A verdict is emitted only to sockets that authenticated as the author who created the post. |
| Pipeline.ResultsAreRuns | apps/ai-processing-service/src/app/moderation/moderation-consumer.service.ts:71-86 | The results are exactly what the worker's runs computed: each carries the verdict and the categories of its run, and the ids of its job. |
| Pipeline.EmitsArePushes | apps/notification-service/src/app/notifications/moderation-push.service.ts:73-79 | The emits are exactly the pushed events, payload for payload, one for each socket listed at that moment. |
| PublicReads.VisibleWasApproved | apps/content-service/src/app/posts/posts.service.ts:44-57 | In every reachable world, what a reader sees of a post its author never edited was approved by the worker as it stands: the applied result is an approval whose job carried exactly this content. |
| PublicReads.ApprovedExactlyAsCreated | apps/content-service/src/app/posts/posts.service.ts:44-63 | In every reachable world, with any edits, what a reader sees of a post was approved as it stands if and only if it equals the content the post was created with. |
| PublicReads.EditedIsVisible | apps/content-service/src/app/posts/posts.service.ts:59-63 | From the start, for any post and any other content, a run ends with readers seeing content that no worker approved: create, publish, approve, edit. |
| EndToEnd.TrendsRecountVerdicts | apps/analytics-service/src/app/trends/trends.service.ts:68-86 | In every reachable world and after any run of a consumer group over what Kafka accepted there, the trend table counts under each key the applied verdicts whose events were processed, each once. |
| EndToEnd.EveryVerdictCounts | apps/analytics-service/src/app/trends/trends.service.ts:68-86 | Once every applied verdict is published to the log and the group has read all of it without skipping, every verdict counts. |
| EndToEnd.EveryVerdictCanCount | libs/shared-messaging/src/lib/kafka-consumer.service.ts:48-94 | A group that has skipped nothing and has every applied verdict in its log can go on, by deliveries alone, to read it to the end with every verdict counted, if and only if no record ahead parses to null. |
| Messages.VersionsPass | libs/shared-dtos/src/lib/event-versions.ts:33-38 | Both event types pass the version check at version 1 and below, and at no later version. |
| QueueTopology.NamesDiffer | libs/shared-messaging/src/lib/queue-topology.ts:13-19 | The main queue, its retry queue and its DLQ have three different names. |
| QueueTopology.Broker.AssertQueueTopology | libs/shared-messaging/src/lib/queue-topology.ts:31-50 | Succeeds exactly when no queue stands under one of the names with other arguments; then all three stand, and declaring again by anyone changes nothing. |
| QueueTopology.RetryIsACycle | libs/shared-messaging/src/lib/queue-topology.ts:34-49 | Rejection leads to the retry queue, expiry there after RETRY_TTL_MS leads back, nothing expires in the other two, and the broker never dead-letters into the DLQ. |
| RetryCycle.DeathsAreCounted | libs/shared-messaging/src/lib/rabbitmq-consumer.service.ts:30-34 | One more death on (queue, reason) adds one to the count the consumer reads there and to no other entry. |
| RetryCycle.StepKeepsInv | libs/shared-messaging/src/lib/rabbitmq-consumer.service.ts:161-211 | Every broker and consumer step keeps the partition of messages, the equality of x-death count and rejections, and the step bound. |
| RetryCycle.Conservation | libs/shared-messaging/src/lib/rabbitmq-consumer.service.ts:167-179 | In every reachable state each accepted message is in exactly one place: ready, unacked, in retry, acked after its handler resolved, or acked with a copy in the DLQ. |
| RetryCycle.OnlyPoisonInDlq | libs/shared-messaging/src/lib/rabbitmq-consumer.service.ts:171-179 | A DLQ copy has the body of an accepted message that was rejected MAX_DELIVERIES times from its main queue, and the x-death header says so. |
| RetryCycle.RetryBound | libs/shared-messaging/src/lib/rabbitmq-consumer.service.ts:170-210 | With k lost deliveries a message's handler starts at most MAX_DELIVERIES + k times, and the message takes a bounded number of steps. |
| RetryCycle.NeverStuck | libs/shared-messaging/src/lib/rabbitmq-consumer.service.ts:161-211 | In every reachable state a message rests (acked after its handler resolved, or in the DLQ) or has an enabled step other than a loss, if and only if it is not stranded; a stranded message has the body null. |
| RetryCycle.RestsUnlessNull | libs/shared-messaging/src/lib/rabbitmq-consumer.service.ts:183-210 | From every reachable state a message can come to rest without another lost delivery if and only if its body is not null; with any losses, a null body never rests. |
| RetryCycle.NullIsStranded | libs/shared-messaging/src/lib/rabbitmq-consumer.service.ts:198-210 | The first delivery of a null body ends with neither ack nor nack; then only a lost connection moves the message, and it is ready again with no rejection counted. |
| RetryCycle.MovesFollowTopology | libs/shared-messaging/src/lib/queue-topology.ts:34-49 | Rejection and expiry move a message exactly where the declared queue arguments dead-letter it. |
| RabbitHandler.HandlingIsARun | libs/shared-messaging/src/lib/rabbitmq-consumer.service.ts:161-211 | The five branches of the callback (DLQ, malformed, null, resolve, throw) are runs of the machine that end in the closed form. |
| RabbitHandler.Channel.HandleMessage | libs/shared-messaging/src/lib/rabbitmq-consumer.service.ts:161-211 | The imperative callback reaches exactly that state. The handler is called exactly for a body that parsed and has deliveries left; the delivery is acked or nacked exactly if its body is not null or has no delivery left; a DLQ copy is made exactly without a delivery left, and otherwise the message is handled or dies into the retry queue. |
| RabbitHandler.Channel.ReplyTo | libs/shared-messaging/src/lib/rabbitmq-consumer.service.ts:195-210 | After the handler: an ack and nothing else if it resolved; if it threw, a nack, and the message is in the retry queue with one more death. |
| WorkerClaims.BreakIsExact | apps/ai-processing-service/src/app/moderation/moderation-consumer.service.ts:46-93 | A step of broker, worker and Redis keeps the invariant (every key stands for a published job or a run at work, every accepted job is published or held by the broker) if and only if it breaks no claim window. |
| WorkerClaims.StepKeepsCore | libs/shared-messaging/src/lib/rabbitmq-consumer.service.ts:161-211 | Every step, careful or not, keeps runs and deliveries together: a delivery is in its handler exactly if a run is attached to it, and only a run of a supported version gets past the claim. |
| WorkerClaims.StepKeepsCover | apps/ai-processing-service/src/app/moderation/moderation-consumer.service.ts:60-63 | Even a step that breaks a window leaves every accepted job published or held; a duplicate is acked only while another delivery is at work on it. |
| WorkerClaims.NoJobVanishes | apps/ai-processing-service/src/app/moderation/moderation-consumer.service.ts:56-92 | In every run that breaks no claim window, each accepted job has a published result or a copy that is ready, unacked, in retry or in the DLQ, even when duplicate copies are acked as already claimed. |
| ClaimHazards.EveryHazardLosesJobs | apps/ai-processing-service/src/app/moderation/moderation-consumer.service.ts:56-63 | For each of the five ways to break a window (delivery lost or worker crashed inside it, release not deleting, claim reply lost, claim made after the delivery was lost) and every envelope of a supported version: a run from the empty queue that breaks a window exactly once and ends with the job vanished. After a crash, a failed release or a lost claim reply nothing else has to go wrong; after a lost delivery or a late claim, no further delivery is lost. |
| ClaimFates.BreakIsFatal | apps/ai-processing-service/src/app/moderation/moderation-consumer.service.ts:56-92 | After any careful run and a step that breaks a window: the job can vanish without any further break if and only if every copy of it was handled or has a delivery left; without any further lost delivery, if and only if one is left after a rejection that is on its way; without any further mishap, if and only if moreover no run of the job has claimed and still has to publish. |
| ClaimFates.DeliveriesLeft | libs/shared-messaging/src/lib/rabbitmq-consumer.service.ts:170-210 | Hazard by hazard, for the copy the run came from: a lost delivery and a crash always leave it a delivery; a failed release and a lost claim reply leave one without a lost delivery exactly if rejected + 1 < MAX_DELIVERIES; a late claim leaves the copy as it is. |
| ClaimFates.StraysLeft | apps/ai-processing-service/src/app/moderation/moderation-consumer.service.ts:60-92 | Only a claim made too late, or a delivery lost before the run tried to publish, leaves a run behind that has claimed and still has to publish: those two need a second failure. |
| ClaimFates.VanishedForGood | apps/ai-processing-service/src/app/moderation/moderation-consumer.service.ts:60-63 | A vanished job stays vanished in every continuation, careful or not, that accepts no new copy of it. |
| ClaimFates.UnsupportedNeverVanishes | apps/ai-processing-service/src/app/moderation/moderation-consumer.service.ts:47-49 | In no run at all does a job with a copy of an unsupported version vanish: the handler throws before it claims. |
| ClaimTiming.ClaimExclusion | apps/ai-processing-service/src/app/moderation/moderation-consumer.service.ts:25-26 | If every run finishes within CLAIM_TTL, done marks succeed and a rejected publish delivers nothing: at most one run per message is between claim and release, and two results for one message are at least DONE_TTL apart. |
| ClaimTiming.TimedRunIsARun | apps/ai-processing-service/src/app/moderation/moderation-consumer.service.ts:56-92 | The timed runs are runs of the same claim machine. |
| ModerationWorker.Worker.Handle | apps/ai-processing-service/src/app/moderation/moderation-consumer.service.ts:46-93 | The imperative handler, under every outcome of each Redis and broker call: which key it leaves, whether it resolves, which result it publishes, and that the whole is a run of the machine, which counts the job as published exactly if that result was published. |
| ModerationWorker.Worker.ReleaseClaim | apps/ai-processing-service/src/app/moderation/moderation-consumer.service.ts:89-92 | The release restores the keys the claim found exactly if the delete took effect. |
| Reconnect.StepKeepsInv | libs/shared-messaging/src/lib/rabbitmq-consumer.service.ts:62-159 | Every event and every stretch between two awaits keeps: one connect in flight at most, the timer field equal to the armed timers, no zombie. |
| ReconnectRuns.NoSilentZombie | libs/shared-messaging/src/lib/rabbitmq-consumer.service.ts:111-132 | After the first connect and before destroy there is an open channel, a connect in flight or exactly one armed timer; never two timers, none after destroy. When no repair is under way, a subscription goes unserved if and only if the broker cancelled every consumer it had on the channel. |
| ReconnectRuns.StaleCloseIsIdle | libs/shared-messaging/src/lib/rabbitmq-consumer.service.ts:72-78 | A close event of a connection no longer referred to schedules nothing and drops nothing in use. |
| ReconnectRuns.LiveCloseSchedules | libs/shared-messaging/src/lib/rabbitmq-consumer.service.ts:72-78 | Losing the connection in use drops the channel at once and arms one timer. |
| ReconnectRuns.OneConsumerPerSubscription | libs/shared-messaging/src/lib/rabbitmq-consumer.service.ts:93-95 | Once the calls in flight have settled, the channel in use has exactly one consumer per registered subscription if and only if the cancellations there took exactly the surplus of the overlaps; without a cancellation, if and only if nothing overlapped its replay; without an overlap, if and only if nothing was cancelled. |
| ReconnectRuns.ConsumersExact | libs/shared-messaging/src/lib/rabbitmq-consumer.service.ts:93-95 | In every reachable settled state, consumers plus cancellations on the channel in use are two for each subscription registered during its replay, one for every other, none else. |
| ReconnectRuns.RunKeepsOpen | libs/shared-messaging/src/lib/rabbitmq-consumer.service.ts:72-91 | Until destroy, a channel the object holds is open. |
| ReconnectRuns.OverlapDoubles | libs/shared-messaging/src/lib/rabbitmq-consumer.service.ts:134-143 | From the first connect on, a run leads to two consumers of one subscription: subscribe, lose the connection, and subscribe again while the reconnect replays. With one cancellation more, another run has an overlap and one consumer each. |
| ReconnectRuns.CancellationSilences | libs/shared-messaging/src/lib/rabbitmq-consumer.service.ts:153-156 | From the first connect on, a run (subscribe, cancelled by the broker) ends with an open channel, no timer and no connect in flight, and a registered subscription without a consumer. |
| ReconnectRuns.SilentForGood | libs/shared-messaging/src/lib/rabbitmq-consumer.service.ts:153-156 | Such a subscription stays without a consumer in every continuation until a connection or channel closes or the service shuts down. |
| RabbitConnection.RabbitMqConnection.constructor | libs/shared-messaging/src/lib/rabbitmq-consumer.service.ts:54-60 | The state after the first connect satisfies the invariant. |
| RabbitConnection.RabbitMqConnection.ScheduleReconnect | libs/shared-messaging/src/lib/rabbitmq-consumer.service.ts:111-132 | Arms one timer and unsets the channel, unless closing or already armed. |
| RabbitConnection.RabbitMqConnection.OnConnectionClose | libs/shared-messaging/src/lib/rabbitmq-consumer.service.ts:72-91 | The close listeners of a dying connection are one machine step: whatever they interleave, one timer. |
| RabbitConnection.RabbitMqConnection.OnChannelClose | libs/shared-messaging/src/lib/rabbitmq-consumer.service.ts:85-91 | Schedules exactly if the closed channel is the one in use. |
| RabbitConnection.RabbitMqConnection.OnTimer | libs/shared-messaging/src/lib/rabbitmq-consumer.service.ts:119-121 | The timer callback up to its first await. |
| RabbitConnection.RabbitMqConnection.OnDialed | libs/shared-messaging/src/lib/rabbitmq-consumer.service.ts:65-80 | The connection is stored before the channel is created. |
| RabbitConnection.RabbitMqConnection.OnChannelOpened | libs/shared-messaging/src/lib/rabbitmq-consumer.service.ts:80-95 | The channel is stored and the replay starts with the first subscription. |
| RabbitConnection.RabbitMqConnection.OnReplayed | libs/shared-messaging/src/lib/rabbitmq-consumer.service.ts:93-95 | The replay goes on with the next subscription, as the list is then. |
| RabbitConnection.RabbitMqConnection.OnConnectRejected | libs/shared-messaging/src/lib/rabbitmq-consumer.service.ts:127-130 | A failed reconnect schedules the next one. |
| RabbitConnection.RabbitMqConnection.ConsumeQueue | libs/shared-messaging/src/lib/rabbitmq-consumer.service.ts:134-143 | Fails without a channel, registering nothing; otherwise registers the subscription once. |
| RabbitConnection.RabbitMqConnection.OnConsumerCancelled | libs/shared-messaging/src/lib/rabbitmq-consumer.service.ts:153-156 | The callback gets null and returns: the broker has one consumer less, and no field of the object changes. |
| RabbitConnection.RabbitMqConnection.GoOn | libs/shared-messaging/src/lib/rabbitmq-consumer.service.ts:93-95 | The replay goes on with the subscription of that index, as the list is then, or connect() returns. |
| RabbitConnection.RabbitMqConnection.OnModuleDestroy | libs/shared-messaging/src/lib/rabbitmq-consumer.service.ts:224-231 | Disarms the timer and unsets connection and channel. |
| RabbitConnection.RabbitMqConnection.Elapse | libs/shared-messaging/src/lib/rabbitmq-consumer.service.ts:62-132 | While a caller awaits, the object goes through any run of the machine. |
| RabbitPublisher.FailsFastOnlyInOutage | libs/shared-messaging/src/lib/rabbitmq-publisher.service.ts:84-95 | publish() finds no channel only while a connect is in flight, a reconnect is scheduled or the service shuts down; otherwise the channel is open. |
| RabbitPublisher.RabbitMqPublisher.BeginPublish | libs/shared-messaging/src/lib/rabbitmq-publisher.service.ts:84-91 | Before shutdown it goes on exactly if the channel is open, and otherwise one connect is in flight or one reconnect is scheduled. |
| RabbitPublisher.RabbitMqPublisher.FinishPublish | libs/shared-messaging/src/lib/rabbitmq-publisher.service.ts:91-94 | If it resolves, the declaration succeeded and exactly one message went to a channel that is open at that moment; if not, nothing was sent, and before shutdown the declaration failed or the outage is being repaired. |
| RabbitPublisher.RabbitMqPublisher.Publish | libs/shared-messaging/src/lib/rabbitmq-publisher.service.ts:84-95 | The same over the whole call, whatever the connection goes through during its await. |
| Rollup.DateOnly | apps/analytics-service/src/app/trends/trends.service.ts:20-23 | The day of an event is the last midnight UTC at or before it. |
| Rollup.AddAllCounts | apps/analytics-service/src/app/trends/trends.service.ts:80-86 | The upserts of one event add, under each key of its day and verdict, one per occurrence of the category. |
| Rollup.StepKeepsSound | libs/shared-messaging/src/lib/kafka-consumer.service.ts:48-94 | Appends, deliveries with any database outcome, offset commits and all restarts keep the table equal to the tally of the applied events. |
| Rollup.SkipIsExact | libs/shared-messaging/src/lib/kafka-consumer.service.ts:46 | Every lane stays passed up to its position if and only if the step is not a restart before the first commit with a record ahead that was neither processed nor is skippable. |
| Rollup.TableIsRecount | apps/analytics-service/src/app/trends/trends.service.ts:68-98 | In every reachable state the table counts, under each key, the category occurrences (or one `none`) of the distinct processed messages. |
| Rollup.OrderAndMultiplicityDoNotMatter | apps/analytics-service/src/app/trends/trends.service.ts:71-72 | Two runs over any two logs that processed the same messages have the same table, whatever the order, duplicates, failures and restarts. |
| Rollup.CommittedIsDone | libs/shared-messaging/src/lib/kafka-consumer.service.ts:69-92 | In every run without such a restart, every offset committed since the group started was processed or can never be read. |
| Rollup.CaughtUp | libs/shared-messaging/src/lib/kafka-consumer.service.ts:48-94 | In every run without such a restart, once the group has read every partition to its end, exactly the readable events since its start have been processed. |
| Rollup.SkipLeavesBehind | libs/shared-messaging/src/lib/kafka-consumer.service.ts:46 | After any careful run, such a restart breaks both promises: the group stands at the end, may commit it, and a record is left behind. |
| Rollup.FirstFailureIsLost | libs/shared-messaging/src/lib/kafka-consumer.service.ts:46 | It happens to every new group and every event: the first event fails once, the consumer restarts, and the event is behind the committed offset, unprocessed. |
| Rollup.OutOfReachStays | libs/shared-messaging/src/lib/kafka-consumer.service.ts:46 | An event left behind is never counted in any continuation that does not publish it again. |
| RollupProgress.DeliverMoves | libs/shared-messaging/src/lib/kafka-consumer.service.ts:48-94 | Every delivery passes its record or not, form by form, and moves no other lane: a duplicate is passed. |
| RollupProgress.ReachesEndUnlessBlocked | libs/shared-messaging/src/lib/kafka-consumer.service.ts:69-92 | From every reachable state a run of deliveries brings a partition to its end if and only if no record ahead is null or an event of a supported version with an invalid payload. |
| RollupProgress.DrainReachesEnd | libs/shared-messaging/src/lib/kafka-consumer.service.ts:48-94 | Then one committing delivery per record is enough, whatever duplicates, malformed and unsupported records are among them. |
| RollupProgress.BlockedForGood | libs/shared-messaging/src/lib/kafka-consumer.service.ts:76-92 | In every run that skips no record, no partition ever gets past such a record. |
| RollupProgress.CatchUpExact | libs/shared-messaging/src/lib/kafka-consumer.service.ts:48-94 | The group can catch up with its whole log exactly if no partition has one ahead. |
| AnalyticsService.TrendsService.Handle | apps/analytics-service/src/app/trends/trends.service.ts:53-98 | The imperative handler and its loop of upserts: it throws exactly on a supported event that is invalid or whose transaction fails, applies exactly a new one, and otherwise leaves the database alone. |
| AnalyticsService.KafkaConsumer.EachMessage | libs/shared-messaging/src/lib/kafka-consumer.service.ts:49-93 | The position grows by one, and nothing else of the lane changes, exactly if the record is empty, malformed or of an unsupported version, or is valid and its transaction commits or finds a duplicate; otherwise it stays. |
| RateLimit.RateBound | apps/api-gateway/src/app/rate-limit/rate-limit.guard.ts:18-39 | No half-open interval of length WINDOW_MS admits more than 2 * MAX_REQUESTS - 1 requests of one IP, in any run of any number of gateways, however late a PEXPIRE lands, or if it never does. |
| RateLimit.RateBoundReached | apps/api-gateway/src/app/rate-limit/rate-limit.guard.ts:11-12 | A run reaches the bound. |
| RateLimit.RateLimitGuard.CanActivate | apps/api-gateway/src/app/rate-limit/rate-limit.guard.ts:18-39 | For every reply of Redis: a request is let through exactly if the machine admits it and no reply was an error, with the requests left reported; 429 exactly beyond the limit; the expiry is set only with the first request of a window. |
| VerdictParser.ParseUndoesPrint | apps/ai-processing-service/src/app/moderation/cf-workers-ai.service.ts:44-57 | Parsing the print of an approval, or of a rejection with any codes, in any surrounding white space gives it back, codes in order. |
| VerdictParser.ApprovedExactly | apps/ai-processing-service/src/app/moderation/cf-workers-ai.service.ts:45-48 | On every input the answer is approved, without categories, if and only if it is white space, then `safe` in any case, then anything; otherwise it is rejected. |
| VerdictParser.SafeIsApproved | apps/ai-processing-service/src/app/moderation/cf-workers-ai.service.ts:45-48 | For every padding, every spelling of `safe` and every rest, the answer is approved. |
| VerdictParser.CodesAreRead | apps/ai-processing-service/src/app/moderation/cf-workers-ai.service.ts:50-56 | Any other answer is read by its second line alone: the codes between its commas, trimmed, in order, empty ones left out, whatever the first line says and later lines hold. |
| VerdictParser.OneLineNoCodes | apps/ai-processing-service/src/app/moderation/cf-workers-ai.service.ts:50-53 | Without a second line there are no codes. |
| VerdictParser.CategoriesAreCodes | apps/ai-processing-service/src/app/moderation/cf-workers-ai.service.ts:44-57 | On every input an approval has no categories, and each category is non-empty, trimmed and free of separators. |
| VerdictParser.ParseIsStable | apps/ai-processing-service/src/app/moderation/cf-workers-ai.service.ts:44-57 | Printing a parsed answer and parsing it again gives the same classification. |
| Trace.EarliestIsLeast | apps/dashboard/src/features/trace/derive-trace.ts:91-95 | A stage's start is the least timestamp among its matching entries, and there is none exactly if nothing matches. |
| Trace.FirstMatched | apps/dashboard/src/features/trace/derive-trace.ts:87-95 | The first match of the sorted log is that least one. |
| Trace.DeriveTrace | apps/dashboard/src/features/trace/derive-trace.ts:86-112 | The loop over the stages, threading the previous start, derives for each stage the status, start and latency that the unordered set of entries determines. |
| Trace.TraceIgnoresOrder | apps/dashboard/src/features/trace/derive-trace.ts:86-112 | Reordering or repeating entries changes no status, start or latency. |
| Trace.StatusGrows | apps/dashboard/src/features/trace/derive-trace.ts:92-106 | More entries never turn done or error back to pending, nor error into anything else. |
| Trace.SettledStaysSettled | apps/dashboard/src/features/trace/derive-trace.ts:117-120 | More entries never unsettle a settled trace, so polling may stop. |
| Trace.SettledExactly | apps/dashboard/src/features/trace/derive-trace.ts:117-120 | A trace is settled if and only if some entry of a stage has level error or fatal, or every stage has an entry. |
| Trace.StatusExactly | apps/dashboard/src/features/trace/derive-trace.ts:89-106 | A stage is in error exactly if one of its entries has such a level, done exactly if it has entries and none does. |
| Trace.LatenciesCoverTheSpan | apps/dashboard/src/features/trace/derive-trace.ts:97-100 | The latencies add up to at least last start minus first start, with equality if and only if the reached stages start in pipeline order. |
| Trace.LatenciesAddUp | apps/dashboard/src/features/trace/derive-trace.ts:122-129 | In pipeline order the latencies add up to the total duration. |
| Trace.LatencyIsTheHop | apps/dashboard/src/features/trace/derive-trace.ts:97-100 | A stage has a latency if and only if it and some stage before are reached; it is the time from the first entry of the last such stage to its own first entry, or 0 where the clocks disagree. |
| Trace.DurationIsWidest | apps/dashboard/src/features/trace/derive-trace.ts:122-129 | The total duration is there exactly if two stages are reached, and is the widest distance between two starts, in whatever order the stages start. |
| TraceMarkers.MarkersAreRecognised | apps/dashboard/src/features/trace/derive-trace.ts:31-84 | Each line the services log as they hand a request on is recognised as its own stage and no other, except that a relay line whose correlation id names the other broker counts for both. |
| TraceMarkers.CompleteTraceSettles | apps/dashboard/src/features/trace/derive-trace.ts:117-120 | One line of every stage, in any order, at any times and however often: every stage is done and the trace is settled. |
| TraceMarkers.MarkersFormAChain | apps/dashboard/src/features/analytics/shape-data.ts:63-76 | Every such line falls into the chain of its correlation id, if the id is a word and the text before it has no equals sign. |
| TrendCharts.VerdictsByDay | apps/dashboard/src/features/analytics/shape-data.ts:12-24 | One cell row per day of the input, days strictly ascending, its numbers the cells of that day. |
| TrendCharts.CellsExact | apps/dashboard/src/features/analytics/shape-data.ts:16-20 | The cells of a day are the sums of its approved rows, of its rejected rows and of all its other rows. |
| TrendCharts.CategoryTotals | apps/dashboard/src/features/analytics/shape-data.ts:33-42 | One total per category other than `none`, the sum of its rows; larger totals first, ties in the order the rows show them. |
| TrendCharts.ModerationTotals | apps/dashboard/src/features/analytics/shape-data.ts:44-55 | The total of all counts, and the approval rate exactly when the total is positive. |
| TrendCharts.RateIsAShare | apps/dashboard/src/features/analytics/shape-data.ts:51-54 | The approval rate lies between 0 and 1 and is the approved share of the total. |
| TrendCharts.TotalsExact | apps/dashboard/src/features/analytics/shape-data.ts:44-50 | The headline numbers are the sums of all rows and of the approved ones. |
| TrendCharts.CategoryExact | apps/dashboard/src/features/analytics/shape-data.ts:33-38 | A category total is the sum of the rows of that category. |
| TrendConservation.DaysAddUp | apps/dashboard/src/features/analytics/shape-data.ts:12-24 | All cells of the per-day chart add up to the headline total. |
| TrendConservation.CategoriesAddUp | apps/dashboard/src/features/analytics/shape-data.ts:33-42 | The category totals and the `none` rows add up to the headline total. |
| TrendConservation.TotalCountsMessages | apps/analytics-service/src/app/trends/trends.service.ts:71-86 | After any run of the consumer group, the headline total over the rows from a cutoff day on is max(1, number of categories) summed over the distinct processed messages of those days, and its approved part the same sum over the approved ones. |
| TrendConservation.CellsCountMessages | apps/analytics-service/src/app/trends/trends.service.ts:71-86 | The cells of a day count in the same way the approved and the rejected messages of that day, and none is pending. |
| LatencyChart.CorrelationIsLeftmost | apps/dashboard/src/features/analytics/shape-data.ts:63-76 | A message has no id exactly when nothing in it matches; otherwise its id is the whole word after the leftmost match, and not empty. |
| LatencyChart.GroupByCorrelation | apps/dashboard/src/features/analytics/shape-data.ts:73-80 | The grouping loop splits the sample into each id's own subsequence. |
| LatencyChart.StageLatencyAverages | apps/dashboard/src/features/analytics/shape-data.ts:68-120 | The loops compute, per stage, the sample count and rounded average of the latencies of each id's chain traced by itself, and the same for the chain durations. |
| LatencyChart.SamplesExact | apps/dashboard/src/features/analytics/shape-data.ts:82-96 | A stage has one sample for each request that reached it and some stage before, and its total is the sum of their latencies, each in its own chain. |
| LatencyChart.ChainsExact | apps/dashboard/src/features/analytics/shape-data.ts:112-119 | The chain average is there exactly if some request reached two stages, counts those requests, and lies within half a millisecond of the mean of their durations. |
| LatencyChart.BarsExact | apps/dashboard/src/features/analytics/shape-data.ts:98-111 | Bars come in pipeline order, one for each stage that has a sample, and 2 * |avgMs * samples - sum| <= samples. |
| LatencyChart.ChartIgnoresInterleaving | apps/dashboard/src/features/analytics/shape-data.ts:73-96 | The chart depends only on which entries each correlation id has, not on how the chains interleave, their order or repetition. |
| LatencyChart.ChartIgnoresOrder | apps/dashboard/src/features/analytics/shape-data.ts:73-96 | Two samples with the same lines that carry an id give the same chart; lines without an id change nothing. |
| Notifications.RegistryIsHistory | apps/notification-service/src/app/notifications/notifications.gateway.ts:25-48 | After any history a socket is registered under a user exactly if it authenticated as that user and has not disconnected, or the user id is empty; no user is kept without sockets. |
| Notifications.InboxIsHistory | apps/notification-service/src/app/notifications/moderation-push.service.ts:55-79 | Every socket receives, in order and once per delivery, exactly the verdicts addressed to its user while it was connected. |
| Notifications.SocketRegistry.Register | apps/notification-service/src/app/registry/socket-registry.service.ts:11-19 | Adds the socket to the user's set. |
| Notifications.SocketRegistry.Unregister | apps/notification-service/src/app/registry/socket-registry.service.ts:21-30 | Removes the socket, and the user with the last one. |
| Notifications.SocketsInOrder | apps/notification-service/src/app/registry/socket-registry.service.ts:32-34 | A user's sockets are listed in the order in which they connected, none twice. |
| Notifications.RegisterExact | apps/notification-service/src/app/registry/socket-registry.service.ts:11-19 | Registering adds exactly that socket under exactly that user. |
| Notifications.UnregisterExact | apps/notification-service/src/app/registry/socket-registry.service.ts:21-30 | Unregistering removes exactly that socket under exactly that user and leaves no empty set. |
| Notifications.NotificationsGateway.HandleConnection | apps/notification-service/src/app/notifications/notifications.gateway.ts:25-41 | A missing or invalid token closes the socket; otherwise it is stored and registered under its user: one Connect step. |
| Notifications.NotificationsGateway.HandleDisconnect | apps/notification-service/src/app/notifications/notifications.gateway.ts:43-48 | Unregisters the socket under the user it stored: one Disconnect step. |
| Notifications.ModerationPushService.Handle | apps/notification-service/src/app/notifications/moderation-push.service.ts:36-84 | The imperative handler skips unsupported versions, throws on invalid payloads, drops events without an author, and otherwise emits once per registered socket: one Deliver step. |
| Notifications.EmitAllExact | apps/notification-service/src/app/notifications/moderation-push.service.ts:73-79 | Each registered socket receives the notice once, no other socket receives anything. |

## Left out

- OutboxRelay.Relay.Poll: one poll at a time runs as code; the interleaving of several polls is covered by the machine it refines, because methods of one object do not interleave in Dafny.
- ModerationWorker.Worker.Handle: covers one uninterrupted run of the handler; interruptions and other runs are steps of the machine it refines.
- RabbitConnection.RabbitMqConnection.OnDialed: each stretch of an async function between two awaits is a method of its own, because Dafny has no suspension.
- AnalyticsService.TrendsService.Handle: handler transactions are serial; a P2002 raised by two racing upserts, which the handler also takes for a duplicate, is not modelled.
- RabbitPublisher.RabbitMqPublisher.Publish: the publisher's connection handling is `RabbitMqConnection` without subscriptions; its own copy of that code is not repeated.
- ContentService.PostsService.FindAll: the query fixes no order of the rows; the page is stated up to that order.
- Relay order: failed rows are overtaken by newer ones, so nothing about the order of publishes is claimed.
- One verdict per post: each run of the worker mints a new result id, so a job handled twice can be applied twice; only one effect per result id is proved.
- A connection after destroy: a connect in flight at shutdown can still complete; only timers are proved to be gone.
- Backlog of a new Kafka group: groups start at the end of each partition, so earlier events are not counted.
- Manual replay: resetting a quarantined row is a step of the environment; moving messages out of the DLQ is not modelled.
- Content after removal: post ids are never reused.
- Payload validation: abstracted to predicates on the payload; token verification to an optional user id.
- The Cloudflare call, JSON encoding, logging, HTTP headers and status codes, environment checks, health endpoints and dependency injection.
- The React pages, the query cache and the streams of the dashboard; the trends read endpoint is the choice of rows in `TotalCountsMessages`.
- Session authentication, CORS, the Redis log sink and the development endpoints.
