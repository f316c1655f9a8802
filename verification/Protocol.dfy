/** The subscribe saga as a state machine whose steps are single SQL statements,
    publishes and deliveries. Each actor is a program counter together with the
    values it has already read; nothing but the statements themselves is atomic,
    and a crash may fall between any two steps. */
module Protocol {
  import opened Model

  // ------------------------------------------------------------------- actors

  /** Relay.drain */
  datatype RelayPc =
    | RelayIdle
    | RelayNext(batch: seq<nat>)
    | RelayMark(row: nat, rest: seq<nat>)

  /** The notifier's single consume loop. */
  datatype NotifierPc =
    | NotifierIdle
    | ReadingDedup(d: Delivery)
    | Reporting(d: Delivery)               // already processed: re-report "sent"
    | Sending(d: Delivery)
    | Replying(d: Delivery, sent: bool)
    | Marking(d: Delivery, sent: bool)
    | Settling(d: Delivery)                // about to ack or nack

  /** The monolith's single reply consumer. */
  datatype ReplyPc =
    | ReplyIdle
    | Loading(r: Reply)
    | Deciding(r: Reply, saga: Saga)       // loaded a row on which the reply acts
    | FailingSubscription(r: Reply, sub: SubId)
    | FailingSaga(r: Reply)
    | Acking(r: Reply)

  /** Sweeper.Sweep over its snapshot. */
  datatype SweepPc =
    | SweepIdle
    | SweepNext(todo: seq<SagaId>, snapshot: map<SagaId, Saga>)
    | SweepFailing(saga: SagaId, todo: seq<SagaId>, snapshot: map<SagaId, Saga>)

  /** dispatchSync and compensateSync, one caller per gRPC saga. */
  datatype SyncPc = Calling | Completing | SyncCompensating | SyncFailingSubscription | SyncFailingSaga

  /** The notifier's handler of that caller's request. */
  datatype ServerPc = ServerReading | ServerSending | ServerMarking | ServerDone

  // ------------------------------------------------------------------ history

  // What has happened so far. No step reads it to decide anything except to draw
  // identifiers that were never used before.

  datatype Identities = Identities(
    tokenOf: map<SagaId, Token>,             // the token of every attempt
    rowOf: map<SagaId, nat>,                 // the outbox row of every broker attempt
    grpc: set<SagaId>,                       // attempts served over gRPC
    attempts: map<SubId, seq<SagaId>>,       // the attempts of a subscription, oldest first
    nextSub: nat)

  /** Counters by message id. */
  datatype MailLog = MailLog(
    sends: multiset<MessageId>,                 // emails accepted
    crashed: multiset<MessageId>,               // crashes between send and mark
    unmarked: multiset<MessageId>,              // failed marks
    unread: multiset<MessageId>,                // failed dedup reads
    expired: multiset<MessageId>)               // dedup keys that timed out

  datatype Audit = Audit(
    refused: set<SagaId>,                    // a "failed" reply was published
    unsent: set<SagaId>,                     // its command was marked without being sent
    lost: set<SagaId>,                       // a "failed" reply was lost or dropped
    compensated: set<SagaId>,                // MarkFailed succeeded after the decision
    reactivations: multiset<SubId>,
    failures: multiset<SubId>,               // entries into status failed
    revivals: multiset<SubId>)               // confirmations of a failed row

  datatype World = World(
    t: Tables, now: nat,
    commands: seq<Delivery>, replies: seq<Reply>, dedup: set<MessageId>,
    relay: RelayPc, notifier: NotifierPc, consumer: ReplyPc, sweeper: SweepPc,
    sync: map<SagaId, SyncPc>, server: map<SagaId, ServerPc>,
    ids: Identities, mail: MailLog, audit: Audit,
    published: set<nat>)                     // outbox rows published at least once

  function Init(): World {
    World(Tables(map[], map[], map[]), 0, [], [], {},
          RelayIdle, NotifierIdle, ReplyIdle, SweepIdle, map[], map[],
          Identities(map[], map[], {}, map[], 0),
          MailLog(multiset{}, multiset{}, multiset{}, multiset{}, multiset{}),
          Audit({}, {}, {}, {}, multiset{}, multiset{}, multiset{}),
          {})
  }

  // ------------------------------------------------------------------ actions

  /** HTTP requests. A Subscribe acts on a lookup that may be stale, so T1 may be
      tried at any moment; only its own guards decide. */
  datatype UserAction =
    | Subscribe(a: Attempt, reactivate: bool, broker: bool)
    | Confirm(token: Token)
    | Unsubscribe(token: Token)

  datatype RelayAction = Fetch | Publish(ok: bool) | MarkRow(ok: bool) | StopRelay

  datatype NotifierAction =
    | TakeCommand
    | ReadDedup(ok: bool)
    | ReportAgain(published: bool)
    | Send(ok: bool)
    | Reject
    | PublishReply(published: bool, reported: bool)
    | MarkProcessed(ok: bool)
    | Settle
    | CrashNotifier

  datatype ConsumerAction = TakeReply | Load | Write | RetryReply | DropReply | AckReply | CrashConsumer

  datatype SweeperAction =
    | FindStale(before: nat, todo: seq<SagaId>)
    | SweepHead(ok: bool)
    | SweepFail(ok: bool)
    | StopSweep

  datatype SyncAction =
    | SyncReturn(saga: SagaId, ok: bool)
    | SyncWrite(saga: SagaId)
    | SyncAbort(saga: SagaId)
    | ServerRead(saga: SagaId, ok: bool)
    | ServerSend(saga: SagaId, ok: bool)
    | ServerMark(saga: SagaId, ok: bool)
    | ServerAbort(saga: SagaId)

  datatype OtherAction =
    | Expire(key: MessageId)
    | LoseCommand(i: nat)
    | LoseReply(i: nat)
    | PublishOther(d: Delivery)
    | Tick

  datatype Action =
    | User(user: UserAction)
    | Relay(relay: RelayAction)
    | Notifier(notifier: NotifierAction)
    | Consumer(consumer: ConsumerAction)
    | Sweeper(sweeper: SweeperAction)
    | Sync(sync: SyncAction)
    | Other(other: OtherAction)

  function Key(w: World, s: SagaId): MessageId
    requires s in w.ids.tokenOf
  {
    ConfirmMessage(w.ids.tokenOf[s])
  }

  predicate IsSagaCommand(d: Delivery) {
    d.key.RoutingConfirm? && d.body.ConfirmationRequest? && d.body.sagaId != ""
  }

  predicate Sendable(d: Delivery) {
    || (d.key.RoutingConfirm? && d.body.ConfirmationRequest?)
    || (d.key.RoutingRelease? && d.body.ReleaseRequest?)
  }

  /** The guard of HandleReply's switch. */
  predicate Acts(r: Reply, state: SagaState) {
    || (r.status.Sent? && state.SubscriptionCreated?)
    || (r.status.NotSent? && (state.SubscriptionCreated? || state.Compensating?))
  }

  // -------------------------------------------------------------------- guards

  ghost predicate FreshAttempt(w: World, a: Attempt, reactivate: bool) {
    && a.saga != "" && a.saga !in w.t.sagas && a.saga !in w.ids.tokenOf
    && a.token !in w.ids.tokenOf.Values
    && a.row !in w.t.outbox
    && (!reactivate ==> w.ids.nextSub <= a.sub)
  }

  ghost predicate EnabledUser(w: World, a: UserAction) {
    match a
    case Subscribe(at, reactivate, broker) =>
      FreshAttempt(w, at, reactivate) && T1(w.t, at, reactivate, broker, w.now).Some?
    case _ => true
  }

  ghost predicate EnabledRelay(w: World, a: RelayAction) {
    match a
    case Fetch => w.relay.RelayIdle?
    case Publish(_) => w.relay.RelayNext? && w.relay.batch != [] && w.relay.batch[0] in w.t.outbox
    case MarkRow(_) => w.relay.RelayMark?
    case _ => true
  }

  ghost predicate EnabledNotifier(w: World, a: NotifierAction) {
    match a
    case TakeCommand => w.notifier.NotifierIdle? && w.commands != []
    case ReadDedup(_) => w.notifier.ReadingDedup?
    case ReportAgain(_) => w.notifier.Reporting?
    case Send(_) => w.notifier.Sending? && Sendable(w.notifier.d)
    case Reject => w.notifier.Sending? && !Sendable(w.notifier.d)
    case PublishReply(published, reported) =>
      w.notifier.Replying? && IsSagaCommand(w.notifier.d) && (reported ==> published)
    case MarkProcessed(_) => w.notifier.Marking?
    case Settle => w.notifier.Settling?
    case _ => !w.notifier.NotifierIdle?
  }

  ghost predicate EnabledConsumer(w: World, a: ConsumerAction) {
    match a
    case TakeReply => w.consumer.ReplyIdle? && w.replies != []
    case Load => w.consumer.Loading?
    case Write =>
      (match w.consumer
       case Deciding(r, _) => r.sagaId in w.t.sagas
       case FailingSubscription(r, sub) => sub in w.t.subs
       case FailingSaga(r) => r.sagaId in w.t.sagas
       case _ => false)
    case AckReply => w.consumer.Acking?
    case CrashConsumer => !w.consumer.ReplyIdle?
    case _ => !w.consumer.ReplyIdle? && !w.consumer.Acking?
  }

  ghost predicate EnabledSweeper(w: World, a: SweeperAction) {
    match a
    case FindStale(before, todo) => w.sweeper.SweepIdle? && IsResumable(w.t, before, todo)
    case SweepHead(ok) =>
      && w.sweeper.SweepNext? && w.sweeper.todo != [] && w.sweeper.todo[0] in w.sweeper.snapshot
      && (ok ==> w.sweeper.snapshot[w.sweeper.todo[0]].state.Compensating? ==>
            w.sweeper.snapshot[w.sweeper.todo[0]].sub in w.t.subs)
    case SweepFail(_) => w.sweeper.SweepFailing? && w.sweeper.saga in w.t.sagas
    case _ => true
  }

  ghost predicate EnabledSync(w: World, a: SyncAction) {
    match a
    case SyncReturn(s, ok) =>
      && s in w.sync && w.sync[s].Calling?
      && (ok ==> s in w.server && w.server[s].ServerDone?)
    case SyncWrite(s) =>
      && s in w.sync && s in w.t.sagas && !w.sync[s].Calling?
      && (w.sync[s].SyncFailingSubscription? ==> w.t.sagas[s].sub in w.t.subs)
    case SyncAbort(s) => s in w.sync
    case ServerRead(s, _) => s in w.server && w.server[s].ServerReading? && s in w.ids.tokenOf
    case ServerSend(s, _) => s in w.server && w.server[s].ServerSending? && s in w.ids.tokenOf
    case ServerMark(s, _) => s in w.server && w.server[s].ServerMarking? && s in w.ids.tokenOf
    case ServerAbort(s) => s in w.server && s in w.ids.tokenOf
  }

  ghost predicate EnabledOther(w: World, a: OtherAction) {
    match a
    case Expire(key) => key in w.dedup
    case LoseCommand(i) => i < |w.commands|
    case LoseReply(i) => i < |w.replies|
    case PublishOther(d) => !IsSagaCommand(d) && !d.messageId.ConfirmMessage?
    case _ => true
  }

  ghost predicate Enabled(w: World, a: Action) {
    match a
    case User(x) => EnabledUser(w, x)
    case Relay(x) => EnabledRelay(w, x)
    case Notifier(x) => EnabledNotifier(w, x)
    case Consumer(x) => EnabledConsumer(w, x)
    case Sweeper(x) => EnabledSweeper(w, x)
    case Sync(x) => EnabledSync(w, x)
    case Other(x) => EnabledOther(w, x)
  }

  // ------------------------------------------------------------------- effects

  function Count<T(==)>(m: multiset<T>, x: T): multiset<T> { m + multiset{x} }

  function CountIf<T(==)>(m: multiset<T>, x: T, b: bool): multiset<T> { if b then m + multiset{x} else m }

  /** MarkFailed of subscription `sub` on behalf of saga `s`. */
  ghost function FailSubscription(w: World, s: SagaId, sub: SubId): World
    requires sub in w.t.subs
  {
    var decided := s in w.t.sagas && Compensated(w.t.sagas[s].state) && w.t.sagas[s].sub == sub;
    w.(t := MarkFailed(w.t, sub).value,
       audit := w.audit.(compensated := if decided then w.audit.compensated + {s} else w.audit.compensated,
                         failures := CountIf(w.audit.failures, sub, w.t.subs[sub].status != MarkedFailed)))
  }

  ghost function SetState(w: World, s: SagaId, state: SagaState, err: string): World
    requires s in w.t.sagas
  {
    w.(t := UpdateState(w.t, s, state, if err == "" then None else Some(err), w.now).value)
  }

  const FAILED_REASON: string := "confirmation email failed"
  const GRPC_REASON: string := "confirmation email failed (grpc)"
  const SWEEP_REASON: string := "compensation finished by sweeper"

  ghost function ApplySubscribe(w: World, a: Attempt, reactivate: bool, broker: bool): World
    requires EnabledUser(w, Subscribe(a, reactivate, broker))
  {
    w.(t := T1(w.t, a, reactivate, broker, w.now).value,
       sync := if broker then w.sync else w.sync[a.saga := Calling],
       server := if broker then w.server else w.server[a.saga := ServerReading],
       ids := w.ids.(tokenOf := w.ids.tokenOf[a.saga := a.token],
                 rowOf := if broker then w.ids.rowOf[a.saga := a.row] else w.ids.rowOf,
                 grpc := if broker then w.ids.grpc else w.ids.grpc + {a.saga},
                 attempts := w.ids.attempts[a.sub :=
                   if reactivate && a.sub in w.ids.attempts then w.ids.attempts[a.sub] + [a.saga] else [a.saga]],
                 nextSub := if reactivate then w.ids.nextSub else a.sub + 1),
       audit := w.audit.(reactivations := CountIf(w.audit.reactivations, a.sub, reactivate)))
  }

  ghost function ApplyUser(w: World, a: UserAction): World
    requires EnabledUser(w, a)
  {
    match a
    case Subscribe(at, reactivate, broker) => ApplySubscribe(w, at, reactivate, broker)
    case Confirm(token) =>
      w.(t := Model.ConfirmSubscription(w.t, token),
         audit := w.audit.(revivals := w.audit.revivals + multiset(
                     set i | i in w.t.subs && w.t.subs[i].token == token && w.t.subs[i].status == MarkedFailed)))
    case Unsubscribe(token) => w.(t := Model.DeleteSubscription(w.t, token))
  }

  ghost function ApplyRelay(w: World, a: RelayAction): World
    requires EnabledRelay(w, a)
  {
    match a
    case Fetch => w.(relay := RelayNext(FetchUnpublished(w.t, BATCH)))
    case Publish(ok) =>
      if ok then
        var row := w.relay.batch[0];
        w.(commands := w.commands + [w.t.outbox[row].message],
           relay := RelayMark(row, w.relay.batch[1..]),
           published := w.published + {row})
      else
        w.(relay := RelayIdle)
    case MarkRow(ok) =>
      w.(t := if ok then Model.MarkPublished(w.t, w.relay.row, w.now) else w.t,
         relay := RelayNext(w.relay.rest))
    case StopRelay => w.(relay := RelayIdle)
  }

  /** The dedup check is skipped for a message without an id. */
  function FirstPc(d: Delivery): NotifierPc {
    if d.messageId.NoId? then Sending(d) else ReadingDedup(d)
  }

  function AfterDispatch(d: Delivery, sent: bool): NotifierPc {
    if d.messageId.NoId? then Settling(d) else Marking(d, sent)
  }

  ghost function ApplyNotifier(w: World, a: NotifierAction): World
    requires EnabledNotifier(w, a)
  {
    var pc := w.notifier;
    match a
    case TakeCommand => w.(commands := w.commands[1..], notifier := FirstPc(w.commands[0]))
    case ReadDedup(ok) =>
      // Fail open: a failed read goes on to send.
      if !ok then w.(notifier := Sending(pc.d), mail := w.mail.(unread := Count(w.mail.unread, pc.d.messageId)))
      else if pc.d.messageId in w.dedup then w.(notifier := Reporting(pc.d))
      else w.(notifier := Sending(pc.d))
    case ReportAgain(published) =>
      w.(replies := if published && IsSagaCommand(pc.d) then w.replies + [Reply(pc.d.body.sagaId, Sent)] else w.replies,
         notifier := Settling(pc.d))
    case Send(ok) =>
      w.(notifier :=
           if IsSagaCommand(pc.d) then Replying(pc.d, ok)
           else if ok then AfterDispatch(pc.d, true)
           else Settling(pc.d),
         mail := w.mail.(sends := CountIf(w.mail.sends, pc.d.messageId, ok)))
    case Reject => w.(notifier := Settling(pc.d))
    case PublishReply(published, reported) =>
      var s := pc.d.body.sagaId;
      w.(replies := if published then w.replies + [Reply(s, if pc.sent then Sent else NotSent)] else w.replies,
         notifier := if !pc.sent && !reported then Settling(pc.d) else AfterDispatch(pc.d, pc.sent),
         audit := w.audit.(refused := if published && !pc.sent then w.audit.refused + {s} else w.audit.refused))
    case MarkProcessed(ok) =>
      w.(dedup := if ok then w.dedup + {pc.d.messageId} else w.dedup,
         notifier := Settling(pc.d),
         mail := w.mail.(unmarked := CountIf(w.mail.unmarked, pc.d.messageId, !ok)),
         audit := w.audit.(unsent := if ok && !pc.sent && IsSagaCommand(pc.d) then w.audit.unsent + {pc.d.body.sagaId}
                                     else w.audit.unsent))
    case Settle => w.(notifier := NotifierIdle)
    case CrashNotifier =>
      w.(commands := [pc.d] + w.commands, notifier := NotifierIdle,
         mail := w.mail.(crashed := CountIf(w.mail.crashed, pc.d.messageId, (pc.Replying? || pc.Marking?) && pc.sent)))
  }

  ghost function ApplyConsumer(w: World, a: ConsumerAction): World
    requires EnabledConsumer(w, a)
  {
    var pc := w.consumer;
    match a
    case TakeReply => w.(replies := w.replies[1..], consumer := Loading(w.replies[0]))
    case Load =>
      w.(consumer :=
           if pc.r.sagaId in w.t.sagas && Acts(pc.r, w.t.sagas[pc.r.sagaId].state)
           then Deciding(pc.r, w.t.sagas[pc.r.sagaId])
           else Acking(pc.r))
    case Write =>
      (match pc
       case Deciding(r, saga) =>
         if r.status.Sent? then SetState(w, r.sagaId, Completed, "").(consumer := Acking(r))
         else SetState(w, r.sagaId, Compensating, FAILED_REASON).(consumer := FailingSubscription(r, saga.sub))
       case FailingSubscription(r, sub) => FailSubscription(w, r.sagaId, sub).(consumer := FailingSaga(r))
       case FailingSaga(r) => SetState(w, r.sagaId, Failed, FAILED_REASON).(consumer := Acking(r))
       case _ => w)
    case RetryReply => w.(consumer := Loading(pc.r))
    case DropReply =>
      w.(consumer := ReplyIdle,
         audit := w.audit.(lost := if pc.r.status.NotSent? then w.audit.lost + {pc.r.sagaId} else w.audit.lost))
    case AckReply => w.(consumer := ReplyIdle)
    case CrashConsumer => w.(consumer := ReplyIdle, replies := [pc.r] + w.replies)
  }

  ghost function ApplySweeper(w: World, a: SweeperAction): World
    requires EnabledSweeper(w, a)
  {
    var pc := w.sweeper;
    match a
    case FindStale(before, todo) =>
      w.(sweeper := SweepNext(todo, map s | s in todo && s in w.t.sagas :: w.t.sagas[s]))
    case SweepHead(ok) =>
      var s := pc.todo[0];
      var saga := pc.snapshot[s];
      var next := w.(sweeper := SweepNext(pc.todo[1..], pc.snapshot));
      if !ok then next
      else if saga.state.SubscriptionCreated? then next.(t := Model.Requeue(w.t, s))
      else if saga.state.Compensating? then
        FailSubscription(w, s, saga.sub).(sweeper := SweepFailing(s, pc.todo[1..], pc.snapshot))
      else next
    case SweepFail(ok) =>
      (if ok then SetState(w, pc.saga, Failed, SWEEP_REASON) else w).(sweeper := SweepNext(pc.todo, pc.snapshot))
    case StopSweep => w.(sweeper := SweepIdle)
  }

  ghost function ApplySync(w: World, a: SyncAction): World
    requires EnabledSync(w, a)
  {
    match a
    case SyncReturn(s, ok) => w.(sync := w.sync[s := if ok then Completing else SyncCompensating])
    case SyncWrite(s) =>
      (match w.sync[s]
       case Completing => SetState(w, s, Completed, "").(sync := w.sync - {s})
       case SyncCompensating =>
         SetState(w, s, Compensating, GRPC_REASON).(sync := w.sync[s := SyncFailingSubscription])
       case SyncFailingSubscription =>
         FailSubscription(w, s, w.t.sagas[s].sub).(sync := w.sync[s := SyncFailingSaga])
       case SyncFailingSaga => SetState(w, s, Failed, GRPC_REASON).(sync := w.sync - {s})
       case Calling => w)
    case SyncAbort(s) => w.(sync := w.sync - {s})
    case ServerRead(s, ok) =>
      if !ok then w.(server := w.server[s := ServerSending], mail := w.mail.(unread := Count(w.mail.unread, Key(w, s))))
      else if Key(w, s) in w.dedup then w.(server := w.server[s := ServerDone])
      else w.(server := w.server[s := ServerSending])
    case ServerSend(s, ok) =>
      w.(server := if ok then w.server[s := ServerMarking] else w.server - {s},
         mail := w.mail.(sends := CountIf(w.mail.sends, Key(w, s), ok)))
    case ServerMark(s, ok) =>
      w.(dedup := if ok then w.dedup + {Key(w, s)} else w.dedup,
         server := w.server[s := ServerDone],
         mail := w.mail.(unmarked := CountIf(w.mail.unmarked, Key(w, s), !ok)))
    case ServerAbort(s) =>
      w.(server := w.server - {s},
         mail := w.mail.(crashed := CountIf(w.mail.crashed, Key(w, s), w.server[s].ServerMarking?)))
  }

  function RemoveAt<T>(q: seq<T>, i: nat): seq<T>
    requires i < |q|
  {
    q[..i] + q[i + 1..]
  }

  ghost function ApplyOther(w: World, a: OtherAction): World
    requires EnabledOther(w, a)
  {
    match a
    case Expire(key) => w.(dedup := w.dedup - {key}, mail := w.mail.(expired := Count(w.mail.expired, key)))
    case LoseCommand(i) => w.(commands := RemoveAt(w.commands, i))
    case LoseReply(i) =>
      w.(replies := RemoveAt(w.replies, i),
         audit := w.audit.(lost := if w.replies[i].status.NotSent? then w.audit.lost + {w.replies[i].sagaId} else w.audit.lost))
    case PublishOther(d) => w.(commands := w.commands + [d])
    case Tick => w.(now := w.now + 1)
  }

  ghost function Apply(w: World, a: Action): World
    requires Enabled(w, a)
  {
    match a
    case User(x) => ApplyUser(w, x)
    case Relay(x) => ApplyRelay(w, x)
    case Notifier(x) => ApplyNotifier(w, x)
    case Consumer(x) => ApplyConsumer(w, x)
    case Sweeper(x) => ApplySweeper(w, x)
    case Sync(x) => ApplySync(w, x)
    case Other(x) => ApplyOther(w, x)
  }

  // ---------------------------------------------------------------------- runs

  /** `actions` can be taken one after another from `w` and lead to `end`. */
  ghost predicate Run(w: World, actions: seq<Action>, end: World)
    decreases |actions|
  {
    if actions == [] then w == end
    else Enabled(w, actions[0]) && Run(Apply(w, actions[0]), actions[1..], end)
  }

  lemma OneStepRun(w: World, a: Action)
    requires Enabled(w, a)
    ensures Run(w, [a], Apply(w, a))
  {
    assert [a][1..] == [];
    assert Run(Apply(w, a), [], Apply(w, a));
  }

  lemma {:induction false} RunAppend(w: World, first: seq<Action>, mid: World, second: seq<Action>, end: World)
    requires Run(w, first, mid) && Run(mid, second, end)
    ensures Run(w, first + second, end)
    decreases |first|
  {
    if first == [] {
      assert first + second == second;
    } else {
      assert (first + second)[1..] == first[1..] + second;
      RunAppend(Apply(w, first[0]), first[1..], mid, second, end);
    }
  }
}
