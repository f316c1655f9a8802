# The subscribe saga and its surroundings, modelled and proved

The system lets a user subscribe to the releases of a GitHub repository. A
subscription is confirmed by email, and the email is sent by another service, so
subscribing is an orchestrated saga: step T1 writes the subscription, the saga and
an outbox row in one transaction; a relay publishes the row; the notifier
deduplicates, sends, replies and marks; the reply consumer completes or compensates
the saga with separate, unguarded SQL writes; a sweeper re-drives or finishes what is
stuck. A synchronous gRPC path does the same inline. No lock spans these actors,
delivery is at least once, and a crash can fall between any two statements.

## How the model is laid out

There are three layers.

1. **Statements and handlers.** `Model` holds the rows and every SQL statement as a
   function on the tables. `Stores`, `Orchestrators`, `Relays`, `Notifiers`,
   `ReplyConsumers`, `Sweepers`, `Subscriptions`, `Scanners` and `CachedClients` hold the
   stores and handlers as classes whose methods follow the code statement by statement
   over a script of faults: each statement, publish or Redis call works, fails without
   effect, or takes effect and still reports an error. A crash is a script in which
   everything remaining fails. Each method is proved equal to a function of the old
   state; the theorems are about those functions. The ones named `...Exactly` say from
   the script alone what an operation answers and writes, however it is failed.
2. **The protocol.** `Protocol` is a state machine whose steps are single statements,
   publishes, deliveries, losses, crashes and clock ticks; every handler in flight is a
   program counter with the values it has already read. `Atomicity`, `Decisions`,
   `Evidence`, `LostReplies`, `EffectivelyOnce`, `Compensation`, `Conservation` and
   `Publishing` each prove one inductive invariant and a theorem about all executions.
3. **The bridge.** `Refinement` and `RequestRuns` prove that each handler of the saga
   and each request of the subscription service, under any faults, is a run of the
   machine, so that the theorems about executions are about the handlers as written.
   `RecoveryRuns` uses it to drive every reachable state to the end. The release scanner
   and the cached client write no row of the saga and are treated apart, in `Scanners`
   and `CachedClients`; the scanner's release messages are `PublishOther` steps.

`Limits`, `Callers`, `Starvation`, `Snapshots` and `Witnesses` deal with natural claims that are false
of the code: the exact condition under which each holds, and a concrete run in which it
does not. `Races` covers requests that act on an outdated check, and `Frames` states once
what the steps of each actor leave alone.
`Identifiers` covers the string identities and `WorkClaiming` the benchmark's shared
counter.

Assumptions, as the deployment states them: one monolith (one reply consumer, one
sweeper, one relay), one notifier consume loop beside its gRPC server, sagas, tokens and
ids never reused. Nothing is assumed about the interleaving, about which statements
fail, or about how often messages are lost, repeated or re-driven.

Where comments or the design notes and the code differ, the code is followed:

- `failed` is documented as terminal, but the saga update has no state guard, so a reply
  handler acting on an older read can overwrite it with `compensating`. What is stable
  is the pair of states (`DecisionsStand`, `FailedIsLeftExactly`, `FailedIsOverwritten`).
- "Completed" is documented as "the email was sent". A `failed` reply that is lost or
  dropped after its message was marked makes the re-drive answer `sent`
  (`PoisonedExactly`, `MarksUnsentExactly`, `CompletedWasEmailed`, `CompletedButNeverEmailed`).
- The sweeper is documented to recover sagas left stuck. A gRPC saga that lost its caller
  is out of its reach, and a hundred of them hide every younger saga from it
  (`AllCanFinishExactly`, `WaitingCallFinishesExactly`, `SweptExactly`, `BlockedForGood`).
- The cached client's comment says that an empty tag is stored; the code does not store
  it (`OnlyAnswersAreStored`).
- Re-confirming is documented as safe. It is, but it does not heal a row that failed
  after it was confirmed: the guard reads the flag, not the status (`ConfirmDoes`).

## Model

| member | source | states |
|---|---|---|
| Atomicity.SagasAndRowsMatch | internal/orchestrator/orchestrator.go:115-142 | In every execution a broker saga has exactly one outbox row, which carries the command that names it, under its own message id; a gRPC saga has none; there are no other rows |
| Atomicity.CurrentLinkIsNewest | internal/orchestrator/orchestrator.go:88-110 | In every execution and over both transports the current token of a live subscription is the one drawn for its newest saga; over the broker it is also the one in that saga's outbox row |
| Atomicity.SupersededLinkNeverResolves | internal/subscription/store.go:89-102 | Once a newer attempt exists, the link of an older one resolves to no row, then and in every later state |
| Atomicity.StepKeepsInv | migrations/000003_create_outbox.up.sql:18 | Every step of every actor keeps the bijection of sagas and rows, unique tokens, unique (email, repo) and newest-token |
| Decisions.RunIsStable | internal/orchestrator/store.go:48-64 | Every step from every admitted state keeps what in-flight handlers know, and no saga changes its mind |
| Decisions.DecisionsStand | internal/orchestrator/reply_consumer.go:121-163 | Over whole executions with stale reads and crashes anywhere: completed stays completed, and {compensating, failed} is never left |
| Decisions.ConsumerDecides | internal/orchestrator/reply_consumer.go:137-160 | The reply consumer's unguarded writes decide only the saga it holds, and what it read still decides |
| Decisions.SweeperDecides | internal/orchestrator/sweeper.go:55-77 | A sweeper acting on a stale snapshot decides nothing that was not decided |
| Decisions.SyncDecides | internal/orchestrator/orchestrator.go:207-235 | A synchronous caller decides only its own saga, once |
| Evidence.CompletedHasEvidence | cmd/notifier/consumer.go:146-173 | In every execution a completed gRPC saga was emailed; a completed broker saga was emailed, or a "failed" reply for it was published and its unsent command then marked as processed |
| Evidence.PoisonedExactly | cmd/notifier/consumer.go:158-171 | Over all executions, a step makes the next report about an attempt falsely say "sent" if and only if it is the notifier's mark of a command that it failed to send and that was never sent before |
| Evidence.FalseSentWasMarked | cmd/notifier/consumer.go:231-242 | Every "sent" about a saga without an email, re-reported, queued or in the consumer's hand, goes back to such a mark after a published "failed" |
| LostReplies.CompletedWasEmailed | internal/orchestrator/reply_consumer.go:63-81 | In every execution a completed broker saga was emailed, or else all of this happened: a "failed" reply was published, its unsent command was marked, and the reply was lost or dropped |
| EffectivelyOnce.SendsAreBounded | cmd/notifier/consumer.go:146-173 | For every message id in every execution: sends <= 1 + crashes between send and mark + failed marks + failed dedup reads + expiries |
| Witnesses.BoundIsAttained | cmd/notifier/consumer.go:163-171 | The bound is attained: for every n an execution crashes n times between send and mark, has no other fault and sends one message n + 1 times |
| Compensation.CompensationIsHonest | internal/orchestrator/reply_consumer.go:145-160 | A failed saga had its subscription marked failed after the decision; every failed subscription has a saga that decided against it |
| Conservation.SubscriptionsBalance | internal/subscription/store.go:63-102 | sagas = 1 + reactivations; entries into failed = reactivations + revivals + (1 if failed now); one row per (email, repo) |
| Publishing.StampedWasPublished | internal/outbox/relay.go:64-81 | Over every run at statement granularity, a row with a publication stamp was published, crashes and requeues included |
| ReplyConsumers.ReplyConsumer.HandleReply | internal/orchestrator/reply_consumer.go:121-163 | The handler under any fault script leaves exactly the tables of the specification, and errs exactly when it does |
| ReplyConsumers.ReplyConsumer.HandleWithRetry | internal/orchestrator/reply_consumer.go:86-103 | Three attempts unless one succeeds or the context is canceled |
| ReplyConsumers.RetriesUntilHandled | internal/orchestrator/reply_consumer.go:86-103 | There is an n, at most three and within the context, such that the first n - 1 attempts failed and the n-th decides; a failure is reported only with nothing left to try |
| ReplyConsumers.OneGoodAttemptSuffices | internal/orchestrator/reply_consumer.go:83-103 | With the context alive, a reply is handled as soon as one of its three attempts meets no failure, leaving what one undisturbed delivery leaves, up to updated_at; only a reply that such a delivery refuses is dropped |
| ReplyConsumers.StopsAfterPrefix | internal/orchestrator/reply_consumer.go:137-160 | However its statements fail, a delivery leaves some prefix of its writes |
| ReplyConsumers.LoadsExactly | internal/orchestrator/reply_consumer.go:121-136 | Under any failures the load comes first: a failed one is an error that changes nothing, and a reply with nothing to do is then done |
| ReplyConsumers.CompletesExactly | internal/orchestrator/reply_consumer.go:138-144 | A "sent" reply to a waiting saga completes it if and only if its one write takes effect, and succeeds if and only if it works |
| ReplyConsumers.FailsExactly | internal/orchestrator/reply_consumer.go:145-160 | Each of the three writes of a "failed" reply is made if and only if the one before worked and its own takes effect; the reply succeeds if and only if all three work |
| ReplyConsumers.RedeliveryRefines | internal/orchestrator/reply_consumer.go:119-163 | Any number of interrupted deliveries, then a complete one, leave what one uninterrupted delivery leaves, up to updated_at |
| ReplyConsumers.FirstKnownDecides | internal/orchestrator/reply_consumer.go:136-162 | For every sequence of replies with duplicates, unknown statuses and interruptions, the first known status decides the saga: completed; failed with its subscription; or compensating for good when the subscription is gone |
| Sweepers.Sweeper.Sweep | internal/orchestrator/sweeper.go:53-83 | A pass over the snapshot of the least recently updated stale sagas, one failure never stopping the others |
| Sweepers.SweepIsConfined | internal/orchestrator/sweeper.go:62-81 | With any snapshot and any faults a pass changes only what the snapshot entitles it to |
| Sweepers.SweepTriesEach | internal/orchestrator/sweeper.go:62-81 | Whatever failed before it, every entry of the batch gets its turn: its rows are requeued if and only if its own statement takes effect, its saga is failed if and only if its row is there, the mark works and the update takes effect |
| Stores.SagaStore.FindResumable | internal/orchestrator/store.go:69-79 | A list of distinct stale unfinished sagas, at most 100, oldest first; when one is left out the list is full and holds none younger |
| Stores.SubscriptionStore.GetSubscriptionByToken | internal/subscription/store.go:43-51 | Finds the row of the token exactly when there is one |
| Stores.SubscriptionStore.GetSubscriptionByEmailAndRepo | internal/subscription/store.go:53-61 | Finds the row of the pair exactly when there is one |
| Stores.SubscriptionStore.GetSubscribersByRepo | internal/subscription/store.go:127-132 | Exactly the confirmed rows of the repo, each once |
| Model.FetchUnpublished | internal/outbox/store.go:64-75 | Ascending ids; a row left out means a full batch of lower ids |
| Model.StampedLeavesQueue | internal/outbox/store.go:78-84 | A stamp takes exactly its row out of the unpublished ones |
| Model.RequeuedReturns | internal/outbox/store.go:89-95 | A requeue puts exactly the rows of the saga back, with their messages |
| Relays.Relay.DrainOnce | internal/outbox/relay.go:64-81 | Publish, then stamp, row by row; a failed publish ends the drain, a failed stamp does not |
| Relays.DrainPublishesPrefix | internal/outbox/relay.go:64-81 | Whatever fails, a drain publishes exactly a prefix of the oldest unpublished batch in id order and stamps only rows of that prefix |
| Relays.DrainsExactly | internal/outbox/relay.go:64-81 | How far a tick gets: the oldest hundred rows in order up to the first publish that reports an error, each published row stamped unless its own stamp fails; no failed stamp ends the drain |
| Relays.StampMeansPublished | internal/outbox/relay.go:71-80 | Over any run of drains, inserts and requeues, a stamped row was published |
| Relays.NeverOvertakes | internal/outbox/store.go:64-75 | When both rows are visible to a fetch, the later one is published only after the earlier one |
| Notifiers.Deduper.MarkProcessed | cmd/notifier/dedup.go:37-39 | The key becomes live for one TTL from now, unless the write failed without effect; other keys keep their time |
| Notifiers.Deduper.Advance | cmd/notifier/dedup.go:37-39 | As time passes a key is live until its TTL is over, and exactly until then |
| Notifiers.Consumer.SendWithRetry | cmd/notifier/consumer.go:247-263 | Equal to the attempts of the specification, with its budget and cancellation |
| Notifiers.Consumer.DispatchDelivery | cmd/notifier/consumer.go:177-225 | Which mail is sent, which reply goes out, and when the delivery is an error |
| Notifiers.Consumer.HandleDelivery | cmd/notifier/consumer.go:146-173 | Dedup read (failing open), dispatch, mark; a seen saga command is reported again |
| Notifiers.Consumer.ServeConfirmation | cmd/notifier/grpc.go:38-67 | The gRPC sibling: one attempt, same dedup keys, an error when the mail fails |
| Notifiers.RetriesAcceptOnce | cmd/notifier/consumer.go:247-263 | The retries accept at most one mail, succeed exactly when one is accepted, and give up exactly at the budget |
| Notifiers.HandleOutcome | cmd/notifier/consumer.go:146-242 | A delivery sends at most one mail, none for a key read as seen; a nacked saga command sent none; only an acked one is marked |
| Notifiers.ReleaseIsMailedExactly | cmd/notifier/consumer.go:216-221 | A release not seen before is mailed in one attempt; acked if and only if the mail is accepted, and then marked |
| Notifiers.ConfirmationIsMailedExactly | cmd/notifier/consumer.go:181-215 | A confirmation not seen before is mailed if and only if one of the first three attempts within the context succeeds; a saga is told of either outcome; acked if and only if it was mailed or the saga was told that it was not |
| Notifiers.OthersAreNotMailed | cmd/notifier/consumer.go:147-162 | A delivery read as seen is acked without a mail and only a saga hears of it again; what is no request is refused without a trace |
| Notifiers.ServedExactly | cmd/notifier/grpc.go:38-67 | The gRPC server answers OK if and only if the request is complete and it was seen or its one mail is accepted; only the latter is marked |
| Notifiers.MarksUnsentExactly | cmd/notifier/consumer.go:158-171 | A delivery marks its key without any mail accepted if and only if it is a saga command whose send failed, whose "failed" reply went out and whose mark took effect |
| Orchestrators.Orchestrator.RunT1 | internal/orchestrator/orchestrator.go:59-142 | T1 with its rollback, statement by statement |
| Orchestrators.Orchestrator.DispatchSync | internal/orchestrator/orchestrator.go:207-217 | Completes after an OK call, compensates after any error |
| Orchestrators.Orchestrator.CompensateSync | internal/orchestrator/orchestrator.go:222-235 | Three writes in order, stopping at the first error |
| Orchestrators.Orchestrator.StartConfirmation | internal/orchestrator/orchestrator.go:59-110 | T1 over the broker, or the whole inline path over gRPC |
| Orchestrators.GrpcSender.SendConfirmation | internal/notification/grpc_sender.go:36-49 | The call may be lost, or served with its answer lost |
| Orchestrators.AllOrNothing | internal/orchestrator/orchestrator.go:59-83 | Whatever fails where, T1 leaves all its rows or none; it reports success only with all; without faults it fails only on a constraint |
| Orchestrators.StartExactly | internal/orchestrator/orchestrator.go:59-142 | T1 is written if and only if no constraint stands against it, everything before the commit works and the commit takes effect; it is reported if and only if the commit works as well |
| Orchestrators.CallExactly | internal/notification/grpc_sender.go:36-49 | Over gRPC one mail with the address and the link of the attempt, under its token's id, is added if and only if the server is reached with all fields, had not seen the token and the mail server takes it; the caller hears OK if and only if the answer returns and the mail went out, now or before |
| Orchestrators.InlineExactly | internal/orchestrator/orchestrator.go:151-235 | Nothing is called unless T1 is reported; then the answer alone decides between completing and compensating |
| Orchestrators.CompensateExactly | internal/orchestrator/orchestrator.go:222-235 | Each of the three writes of a compensation is made if and only if the one before worked and its own takes effect |
| Transports.TransportsAgree | internal/orchestrator/orchestrator.go:151-235 | For a request with email, repo and link and the same send outcome, both transports mail the same message to the same address, or none, and leave the same subscriptions and the same saga up to its error text; gRPC adds no outbox row |
| Transports.GrpcSagasAreIsolated | internal/orchestrator/orchestrator.go:171-200 | In every execution no reply and no command, queued or being handled, and no outbox row names a gRPC saga |
| Refinement.HandleIsRun | internal/orchestrator/reply_consumer.go:121-163 | HandleReply under any faults is a run of the protocol |
| Refinement.RetryIsRun | internal/orchestrator/reply_consumer.go:86-103 | So are all attempts of handleWithRetry, even after a write that took effect and reported an error |
| Refinement.SweepIsRun | internal/orchestrator/sweeper.go:53-83 | A whole pass of Sweep under any faults is a run of the protocol |
| Refinement.DrainIsRun | internal/outbox/relay.go:64-81 | A whole drain under any faults is a run of the protocol |
| Refinement.DeliveryIsRun | cmd/notifier/consumer.go:146-242 | A delivery under any Redis, SMTP and publish faults is a run that counts every accepted mail |
| Refinement.StartIsRun | internal/orchestrator/orchestrator.go:59-110 | T1 under any faults leaves the whole state as it was or is the one Subscribe step, and it is the step whenever it reports success |
| Refinement.StartSyncIsRun | internal/orchestrator/orchestrator.go:151-235 | The inline path under any database, network, Redis and SMTP faults is a run that counts every accepted mail and moves no other actor |
| RequestRuns.SubscribeIsRun | internal/subscription/service.go:82-134 | A subscribe over the broker under any faults leaves the whole state as it was or is one T1 for the request, which it is whenever it answers Accepted |
| RequestRuns.SubscribeInlineIsRun | internal/subscription/service.go:82-134 | A subscribe over gRPC under any faults is a run that counts every accepted mail and moves no other actor |
| RequestRuns.ConfirmIsRun | internal/subscription/service.go:137-160 | A confirmation under any faults leaves the whole state as it was or is one Confirm step; Done means that the row of the token is confirmed |
| RequestRuns.UnsubscribeIsRun | internal/subscription/service.go:163-173 | An unsubscribe under any faults leaves the whole state as it was or is one Unsubscribe step, which it is whenever it answers Done |
| Recovery.RoundFinishesBatch | internal/orchestrator/sweeper.go:53-83 | When no "failed" reply can hit a saga without its subscription, a failure-free round finishes each saga of the sweeper's batch for which it can do something, whatever else is in the batch, and disturbs no other unfinished saga |
| Recovery.RoundShrinks | internal/orchestrator/store.go:69-79 | Under the same condition, and beside k <= 100 sagas for which it can do nothing, a round leaves at most n - (100 - k) of the n others |
| Recovery.RoundsFinishAll | internal/orchestrator/sweeper.go:53-83 | From every reachable state in which no unfinished saga lost its subscription and k < 100 gRPC sagas wait for their callers, ceil(n / (100 - k)) rounds finish all n other stale sagas; ceil(n / 100) when none waits |
| Recovery.ReachableIsMendable | internal/orchestrator/orchestrator.go:115-142 | In every execution over both transports each saga with its subscription, except a gRPC one waiting for its caller, can be mended: it still has the row to mark or the outbox row that can re-drive it |
| RecoveryRuns.RoundIsRun | internal/orchestrator/sweeper.go:53-83 | Sweep, drain until empty, consume all commands, handle all replies: a run of the protocol ending in the round's tables |
| RecoveryRuns.EveryStateCanFinish | internal/orchestrator/sweeper.go:53-83 | From every reachable state, handlers halfway, some continuation in which not one more mail is accepted finishes every saga, if no unfinished saga lost its subscription and no waiting gRPC saga its caller |
| RecoveryRuns.AllCanFinishExactly | internal/orchestrator/sweeper.go:53-83 | All sagas of a reachable state can still be finished, over both transports, from the middle of any handlers and with subscriptions deleted, if and only if each waiting gRPC saga has hope from its caller and each compensating saga whose subscription is gone was marked before |
| Starvation.PassIsIdleExactly | internal/orchestrator/sweeper.go:62-81 | A working pass changes nothing if and only if every saga of its batch is immovable: compensating with its row gone, or waiting with no published row to re-drive |
| Starvation.IdlePassRepeats | internal/orchestrator/store.go:69-79 | While the tables stand still, a full batch of immovable sagas comes back in every later pass |
| Starvation.BlockedForGood | internal/orchestrator/store.go:69-79 | Once a hundred gRPC sagas lost their callers and are older than the other unfinished ones, then in every continuation every snapshot of the sweeper holds only them and every pass changes nothing |
| Snapshots.SweptExactly | internal/orchestrator/store.go:69-79 | When no unfinished saga lost its subscription, an unfinished saga of a reachable state comes into a snapshot of the sweeper in some continuation, from the middle of any handlers, if and only if fewer than a hundred gRPC sagas that lost their callers are older |
| Starvation.WallIsReachable | internal/orchestrator/orchestrator.go:171-217 | A run that reaches such a state, by induction over the abandoned calls |
| Attempts.OneLiveAttempt | internal/subscription/store.go:72-102 | With handlers atomic up to a stop before MarkFailed: at most one unfinished saga per subscription, none while it is failed, and it is the newest attempt |
| Limits.StatesAreWritten | internal/orchestrator/store.go:48-64 | A saga changes state exactly when a step writes it, to the state written |
| Limits.FailedIsLeftExactly | internal/orchestrator/store.go:53-53 | A step takes a saga out of failed if and only if the reply consumer writes on an older read of it |
| Limits.ReactivateKeepsOneLive | internal/subscription/store.go:89-102 | A re-subscribe leaves one unfinished saga if and only if no older attempt is unfinished at that moment |
| Limits.MismatchArisesExactly | internal/orchestrator/reply_consumer.go:137-160 | Over all executions, a step leaves a failed row with an unfinished saga, from which a re-subscribe makes two, if and only if it is a handler's mark of a row that has one or the consumer's write that reopens a failed saga of the row |
| Limits.DeletedSubscriptionSticks | internal/subscription/store.go:72-84 | A compensating saga whose subscription was deleted can still finish if and only if some handler had already marked the subscription |
| Callers.WaitingCallFinishesExactly | internal/orchestrator/orchestrator.go:207-235 | A waiting gRPC saga can still finish if and only if its caller is alive and knows of the mail, or its subscription is still there, or the caller waits for a server that is still there |
| Witnesses.FailedIsOverwritten | internal/orchestrator/reply_consumer.go:145-160 | A run to a failed saga that the next write turns back to compensating |
| Witnesses.TwoLiveSagas | internal/subscription/store.go:89-102 | A run to two unfinished sagas of one subscription |
| Witnesses.CompletedButNeverEmailed | cmd/notifier/consumer.go:231-242 | A run to a completed saga without any accepted mail |
| Witnesses.FailedButConfirmed | internal/subscription/store.go:72-84 | A run to a failed subscription that is confirmed, its mail sent |
| Witnesses.OrphanedForGood | internal/subscription/store.go:72-84 | A run to a compensating saga whose subscription was deleted and that can never finish |
| Witnesses.AbandonedForGood | internal/orchestrator/orchestrator.go:207-217 | A run to a waiting gRPC saga that lost its caller and can never finish |
| Subscriptions.Service.SubscribeTo | internal/subscription/service.go:82-134 | The checks in order with their errors, then T1 for a new or a failed row, over either transport |
| Subscriptions.Service.ConfirmLink | internal/subscription/service.go:137-160 | Lookup, guarded confirm, registration, with the error of each |
| Subscriptions.Service.UnsubscribeLink | internal/subscription/service.go:163-173 | Lookup, then delete |
| Subscriptions.Service.SubscribersForRepo | internal/subscription/service.go:193-203 | Every confirmed subscriber of the repo once, with the row's own email and token |
| Subscriptions.SubscribeAcceptsExactly | internal/subscription/service.go:82-134 | Over the broker: accepted if and only if the email is valid, the repo well-formed and existing and no live row has the pair; then the row waits under the new token with a matching link; else nothing changed |
| Subscriptions.RejectsExactly | internal/subscription/service.go:82-124 | Over both transports and with any statement failing, each rejection (invalid email, invalid repo, check failed, repo not found, database error, already subscribed) is answered if and only if its own check fails first, and changes nothing |
| Subscriptions.AcceptsUnderFaults | internal/subscription/service.go:82-134 | Over the broker a request is accepted if and only if it is due and the lookup and the five statements of T1 work |
| Subscriptions.InlineAcceptsExactly | internal/orchestrator/orchestrator.go:151-165 | Over gRPC the same requests are accepted, whatever the network, Redis and the mail server do; the saga is then finished, with the row waiting or failed to match, and no outbox row |
| Subscriptions.InlineMailsExactly | internal/orchestrator/orchestrator.go:151-217 | Over gRPC, with any faults: exactly when the request's address is mailed the link baseUrl/api/confirm/token, which state the saga ends in, and when the request is accepted |
| Subscriptions.SubscribeIsAtomic | internal/subscription/service.go:120-133 | Over the broker, whatever fails, everything or nothing is written, and Accepted means everything |
| Subscriptions.InlineIsAtomic | internal/orchestrator/orchestrator.go:171-235 | Over gRPC, whatever fails, nothing is written or T1 as a whole with progress of its own saga only, and Accepted means a finished saga |
| Races.RaceHasOneWinner | internal/subscription/service.go:106-133 | Of two requests that decided on the same tables one wins; the other's T1, any run later and over either transport, succeeds only after the winner's row was deleted or failed once more |
| Subscriptions.ReachableIsConstrained | migrations/000001_init.up.sql:8-8 | Every reachable state meets both unique constraints |
| Subscriptions.ConfirmDoes | internal/subscription/service.go:137-160 | Succeeds exactly for a live token; the row is confirmed and tracked; its status becomes confirmed unless it failed after an earlier confirmation; nothing else changes |
| Subscriptions.ConfirmAnswersExactly | internal/subscription/service.go:137-160 | Under any failures: each answer if and only if it is due; the row is written if and only if it is unconfirmed and the write takes effect; its repo is tracked if and only if it already was or the registration is reached and takes effect |
| Subscriptions.ConfirmHeals | internal/subscription/service.go:153-157 | Any failed or successful tries followed by a working one end where one working try ends |
| Subscriptions.FailedStillListed | internal/subscription/store.go:127-132 | Marking a row failed never changes whether it is told of releases, and it is told if and only if it had been confirmed |
| Subscriptions.UnsubscribeFrees | internal/subscription/service.go:163-173 | Exactly the row of the token goes, and the pair can be subscribed anew while the old token stays dead |
| Subscriptions.UnsubscribeAnswersExactly | internal/subscription/service.go:163-173 | Under any failures: each answer if and only if it is due, not found for an unknown link; the row goes if and only if the deletion takes effect |
| Scanners.Scanner.DetectNewRelease | internal/releasetracking/scanner.go:132-168 | When a tag is news, with the errors that are swallowed and those that end the visit |
| Scanners.Scanner.RecordThenNotify | internal/releasetracking/scanner.go:177-202 | Record first; then every subscriber, skipping those that fail |
| Scanners.Scanner.ScanOnce | internal/releasetracking/scanner.go:87-125 | A cycle is the fold of the visits |
| Scanners.VisitsExactly | internal/releasetracking/scanner.go:119-202 | One visit under any failures: a failed stamp hides nothing; a tag is recorded if and only if it differs from the stored one, which can be read, and the record takes effect; then exactly the reachable subscribers are told, in order |
| Scanners.ScanVisitsEach | internal/releasetracking/scanner.go:87-125 | Every repo of a cycle gets its visit, whatever failed in those before |
| Scanners.ScanIsConsistent | internal/releasetracking/scanner.go:119-202 | Whatever fails: recorded tags are non-empty and never repeat adjacently, last_seen_tag is the last of them, nothing is announced before it is recorded |
| Scanners.RecordsAreDestuttered | internal/releasetracking/scanner.go:119-202 | With the store working, the recorded tags are the observed ones without empties and adjacent repeats |
| Scanners.AnnouncementsAreDestuttered | internal/releasetracking/scanner.go:190-201 | A subscriber listed throughout and reached is told exactly those tags, in order |
| Scanners.NewsIsCollapse | internal/releasetracking/scanner.go:152-163 | Comparing with the stored tag computes exactly the collapse of the non-empty tags |
| Scanners.TagsSurvive | internal/releasetracking/store.go:41-54 | Registering and checking a repo change no stored tag of any repo |
| CachedClients.CachedClient.CheckRepoExists | internal/githubgateway/cached_client.go:46-83 | Equal to the specification of a cached call for existence |
| CachedClients.CachedClient.GetLatestRelease | internal/githubgateway/cached_client.go:87-117 | Equal to the specification of a cached call for the latest tag |
| CachedClients.StoredUntilExpiry | internal/cache/cache.go:38-55 | A stored value is returned exactly until its TTL is over, and no other key is affected |
| CachedClients.StoredAnswerIsServed | internal/githubgateway/cached_client.go:46-117 | A miss whose write works is served from the cache until its TTL is over, and exactly until then, whatever the upstream says by then, without touching the cache |
| CachedClients.ExistsExactly | internal/githubgateway/cached_client.go:46-83 | Existence: a live "true" or "false" is the answer and stays; otherwise the upstream answers and either answer is stored |
| CachedClients.ReleaseExactly | internal/githubgateway/cached_client.go:87-117 | Latest tag: a live non-empty entry is the answer and stays; otherwise the upstream answers, and only a non-empty tag is stored |
| CachedClients.AnswersAreRecent | internal/githubgateway/cached_client.go:46-117 | Over every interleaving of calls, evictions and cache errors, an answer is at most as old as the storing time and the TTL less one tick allow, the larger of lag and ttl + lag - 1; a call fails only when the upstream does |
| CachedClients.AgeExactly | internal/githubgateway/cached_client.go:46-117 | An age bounds every answer, for every upstream, interleaving, eviction and failure, if and only if it is at least lag and, when there is a TTL at all, at least ttl + lag - 1 |
| CachedClients.TtlSufficesExactly | internal/cache/cache.go:50-55 | Every answer is from within the last TTL if and only if callers store at most one tick late and no later than the TTL |
| CachedClients.OnlyAnswersAreStored | internal/githubgateway/cached_client.go:103-114 | An entry always decodes to an answer the upstream gave to its own query; no error and no empty tag is stored |
| CachedClients.LateStoreOutlivesTtl | internal/cache/cache.go:50-55 | With a TTL of two ticks, "within the last TTL" holds when callers store at most one tick late and fails at two |
| CachedClients.ServeIsSteps | internal/githubgateway/cached_client.go:46-117 | A call of the methods is a run of the concurrent machine |
| CachedClients.KeyDeterminesQuery | internal/githubgateway/cached_client.go:47-47 | One key never serves two queries |
| Identifiers.ParseAcceptsExactly | internal/repospec/repospec.go:20-30 | Accepts exactly the strings with one '/' and two non-empty sides, and String undoes it |
| Identifiers.ParseUndoesText | internal/repospec/repospec.go:20-30 | Parse undoes String if and only if both sides are non-empty and free of '/' |
| Identifiers.CacheKeysSound | internal/githubgateway/cached_client.go:88-88 | Cache keys are injective on parsed specs and the two families are disjoint |
| Identifiers.DedupKeysSound | internal/notification/broker_publisher.go:63-67 | A dedup key stands for one message id, when repo and token contain no ':' |
| Identifiers.ReleaseIdIsUnambiguousExactly | internal/notification/broker_publisher.go:64-64 | A release id stands for one release if and only if none of repo, tag and token contains a ':' |
| Identifiers.ColonsCollide | internal/notification/broker_publisher.go:64-64 | Two releases that share one id |
| Identifiers.GrpcKeyIsBrokerKey | cmd/notifier/grpc.go:47-47 | The key derived from the link equals the broker's message id if and only if the token is non-empty and free of '/' |
| WorkClaiming.DriveFillsEverySlotOnce | cmd/confirmbench/main.go:166-186 | For every worker count but zero, every call count and every interleaving: each slot written exactly once, none out of range, counter at count - 1 + workers |
| WorkClaiming.DriveTakesExactly | cmd/confirmbench/main.go:172-184 | No interleaving exceeds 2 * count + workers steps, and it has run that long exactly when all workers are done |
| WorkClaiming.MoveKeeps | cmd/confirmbench/main.go:176-182 | Every atomic step keeps the claim invariant and lowers the measure by one |
| WorkClaiming.Drive | cmd/confirmbench/main.go:166-186 | The loop under an arbitrary scheduler; every measured duration ends in a slot of its own |

## Left out

- Clients of AMQP, Redis, Postgres, gRPC and SMTP: replaced by operations that work, fail, or take effect and report an error, with redelivery, loss and expiry as steps.
- JSON and protobuf encoding: messages are typed, and an undecodable body is one message variant.
- HTTP handlers, middleware, router, configuration, logging and metrics: one-branch facts.
- The email pattern, UUID generation and tickers: a request carries whether its email is valid and the identifiers drawn; freshness of identifiers is a guard of the Subscribe step.
- internal/githubgateway/client.go: an opaque upstream with an answer at every instant.
- Several monoliths or several notifiers at once: the design states single instances, and decision stability depends on it.
- Store.CreateSubscription, GetSubscriptions, GetActiveRepos and the quantile helper of the benchmark: easy members only.
- The columns created_at, attempts, last_checked_at and last_release_at: no decision reads them.
- The publisher's mutex: publishes are atomic steps.
- LostReplies.CompletedWasEmailed: over whole executions the three causes are necessary, not sufficient: after all of them a later send may still succeed, for instance once the dedup key expired. The branch that goes wrong is characterised exactly, for one delivery by Notifiers.MarksUnsentExactly and for every step of an execution by Evidence.PoisonedExactly, and Witnesses.CompletedButNeverEmailed is a run.
- EffectivelyOnce.SendsAreBounded: a mail that the server accepted although the client saw an error is counted as not sent, because the code cannot tell the two apart.
- Recovery.RoundsFinishAll: the rounds are free of database, Redis and publish failures; mails may fail as they like.
- Notifiers.Consumer.SendWithRetry: the pause between attempts is only the moment at which a canceled context is noticed.
- Protocol: confirming is one unconditional step, which includes every interleaving of the service's lookup and its guarded update.
