/** T1 is atomic: attempts, sagas, outbox rows and tokens stay in step, whatever
    the interleaving of requests, handlers and crashes. */
module Atomicity {
  import opened Model
  import opened Protocol
  import Frames

  /** `q` lists sagas of subscription `i`, each once. */
  ghost predicate AreAttemptsOf(w: World, i: SubId, q: seq<SagaId>) {
    Distinct(q) && forall j | 0 <= j < |q| :: q[j] in w.t.sagas && w.t.sagas[q[j]].sub == i
  }

  /** Every saga has a token that no other saga ever had. */
  ghost predicate TokensDistinct(w: World) {
    && w.ids.tokenOf.Keys == w.t.sagas.Keys
    && (forall s, z | s in w.ids.tokenOf && z in w.ids.tokenOf && s != z :: w.ids.tokenOf[s] != w.ids.tokenOf[z])
  }

  /** Every saga is a recorded attempt of its subscription ... */
  ghost predicate SagasRecorded(w: World) {
    forall s | s in w.t.sagas ::
      s != "" && w.t.sagas[s].sub in w.ids.attempts && s in w.ids.attempts[w.t.sagas[s].sub]
  }

  /** ... and every recorded attempt is a saga, under a subscription id that was
      really drawn. */
  ghost predicate AttemptsAreSagas(w: World) {
    forall i | i in w.ids.attempts :: i < w.ids.nextSub && AreAttemptsOf(w, i, w.ids.attempts[i])
  }

  /** Every saga has one transport; only gRPC sagas have callers. */
  ghost predicate Split(w: World) {
    && w.t.sagas.Keys == w.ids.rowOf.Keys + w.ids.grpc
    && w.ids.rowOf.Keys !! w.ids.grpc
    && w.sync.Keys <= w.ids.grpc
    && w.server.Keys <= w.ids.grpc
  }

  ghost predicate RowOfSaga(w: World, s: SagaId)
    requires s in w.ids.rowOf
  {
    && s in w.ids.tokenOf
    && w.ids.rowOf[s] in w.t.outbox
    && w.t.outbox[w.ids.rowOf[s]].sagaId == s
    && IsSagaCommand(w.t.outbox[w.ids.rowOf[s]].message)
    && w.t.outbox[w.ids.rowOf[s]].message.messageId == Key(w, s)
    && w.t.outbox[w.ids.rowOf[s]].message.body.sagaId == s
  }

  /** Broker attempts and outbox rows correspond one to one; gRPC attempts have
      no row at all. */
  ghost predicate RowsMatchSagas(w: World) {
    && Split(w)
    && (forall s | s in w.ids.rowOf :: RowOfSaga(w, s))
    && (forall r | r in w.t.outbox ::
          w.t.outbox[r].sagaId in w.ids.rowOf && w.ids.rowOf[w.t.outbox[r].sagaId] == r)
  }

  /** The current token of a row is the one of its newest attempt. */
  ghost predicate NewestToken(w: World) {
    forall i | i in w.t.subs ::
      && i in w.ids.attempts
      && w.ids.attempts[i] != []
      && w.ids.attempts[i][|w.ids.attempts[i]| - 1] in w.ids.tokenOf
      && w.ids.tokenOf[w.ids.attempts[i][|w.ids.attempts[i]| - 1]] == w.t.subs[i].token
  }

  ghost predicate OneRowPerPair(w: World) {
    forall i, j | i in w.t.subs && j in w.t.subs && i != j ::
      w.t.subs[i].email != w.t.subs[j].email || w.t.subs[i].repo != w.t.subs[j].repo
  }

  ghost predicate Inv(w: World) {
    && TokensDistinct(w) && SagasRecorded(w) && AttemptsAreSagas(w)
    && RowsMatchSagas(w) && NewestToken(w) && OneRowPerPair(w)
  }

  /** Handlers change statuses, states and publication stamps, nothing else. */
  ghost predicate SameShape(w: World, z: World) {
    && z.ids == w.ids
    && z.t.sagas.Keys == w.t.sagas.Keys
    && (forall s | s in w.t.sagas :: z.t.sagas[s].sub == w.t.sagas[s].sub)
    && z.t.outbox.Keys == w.t.outbox.Keys
    && (forall r | r in w.t.outbox ::
          z.t.outbox[r].sagaId == w.t.outbox[r].sagaId && z.t.outbox[r].message == w.t.outbox[r].message)
    && z.t.subs.Keys <= w.t.subs.Keys
    && (forall i | i in z.t.subs ::
          && z.t.subs[i].token == w.t.subs[i].token
          && z.t.subs[i].email == w.t.subs[i].email
          && z.t.subs[i].repo == w.t.subs[i].repo)
    && z.sync.Keys <= w.sync.Keys && z.server.Keys <= w.server.Keys
  }

  lemma ShapeKeepsInv(w: World, z: World)
    requires Inv(w) && SameShape(w, z)
    ensures Inv(z)
  {
    ShapeKeepsRows(w, z);
    ShapeKeepsAttempts(w, z);
  }

  lemma ShapeKeepsRows(w: World, z: World)
    requires RowsMatchSagas(w) && SameShape(w, z)
    ensures RowsMatchSagas(z)
  {
    forall s | s in z.ids.rowOf ensures RowOfSaga(z, s) { assert RowOfSaga(w, s); }
  }

  lemma ShapeKeepsAttempts(w: World, z: World)
    requires TokensDistinct(w) && SagasRecorded(w) && AttemptsAreSagas(w) && NewestToken(w) && OneRowPerPair(w) && SameShape(w, z)
    ensures TokensDistinct(z) && SagasRecorded(z) && AttemptsAreSagas(z) && NewestToken(z) && OneRowPerPair(z)
  {}

  lemma UserKeepsShape(w: World, a: UserAction)
    requires EnabledUser(w, a) && !a.Subscribe?
    ensures SameShape(w, ApplyUser(w, a))
  {}

  lemma RelayKeepsShape(w: World, a: RelayAction)
    requires EnabledRelay(w, a)
    ensures SameShape(w, ApplyRelay(w, a))
  {}

  lemma NotifierKeepsShape(w: World, a: NotifierAction)
    requires EnabledNotifier(w, a)
    ensures SameShape(w, ApplyNotifier(w, a))
  {
    Frames.NotifierMoves(w, a);
    SameTablesSameShape(w, w, ApplyNotifier(w, a));
  }

  lemma SetStateShape(w: World, s: SagaId, state: SagaState, err: string)
    requires s in w.t.sagas
    ensures SameShape(w, SetState(w, s, state, err))
  {}

  lemma FailSubscriptionShape(w: World, s: SagaId, sub: SubId)
    requires sub in w.t.subs
    ensures SameShape(w, FailSubscription(w, s, sub))
  {}

  /** The shape is about the tables, the identities and the callers alone. */
  lemma SameTablesSameShape(w: World, m: World, z: World)
    requires SameShape(w, m) && z.t == m.t && z.ids == m.ids
    requires z.sync.Keys <= m.sync.Keys && z.server.Keys <= m.server.Keys
    ensures SameShape(w, z)
  {}

  lemma ConsumerWriteShape(w: World)
    requires EnabledConsumer(w, Write)
    ensures SameShape(w, ApplyConsumer(w, Write))
  {
    match w.consumer
    case Deciding(r, _) =>
      SetStateShape(w, r.sagaId, Completed, "");
      SetStateShape(w, r.sagaId, Compensating, FAILED_REASON);
    case FailingSubscription(r, sub) => FailSubscriptionShape(w, r.sagaId, sub);
    case FailingSaga(r) => SetStateShape(w, r.sagaId, Failed, FAILED_REASON);
  }

  lemma ConsumerKeepsShape(w: World, a: ConsumerAction)
    requires EnabledConsumer(w, a)
    ensures SameShape(w, ApplyConsumer(w, a))
  {
    if a.Write? {
      ConsumerWriteShape(w);
    } else {
      Frames.ConsumerReads(w, a);
      Frames.ConsumerMoves(w, a);
      SameTablesSameShape(w, w, ApplyConsumer(w, a));
    }
  }

  lemma SweeperKeepsShape(w: World, a: SweeperAction)
    requires EnabledSweeper(w, a)
    ensures SameShape(w, ApplySweeper(w, a))
  {
    Frames.SweeperMoves(w, a);
    if a.SweepHead? && a.ok {
      SweepHeadShape(w);
    } else if a.SweepFail? && a.ok {
      SetStateShape(w, w.sweeper.saga, Failed, SWEEP_REASON);
    }
  }

  lemma SweepHeadShape(w: World)
    requires EnabledSweeper(w, SweepHead(true))
    ensures SameShape(w, ApplySweeper(w, SweepHead(true)))
  {
    var s := w.sweeper.todo[0];
    if w.sweeper.snapshot[s].state.Compensating? { FailSubscriptionShape(w, s, w.sweeper.snapshot[s].sub); }
  }

  lemma SyncWriteShape(w: World, s: SagaId)
    requires EnabledSync(w, SyncWrite(s))
    ensures SameShape(w, ApplySync(w, SyncWrite(s)))
  {
    match w.sync[s]
    case Completing => SetStateShape(w, s, Completed, "");
    case SyncCompensating => SetStateShape(w, s, Compensating, GRPC_REASON);
    case SyncFailingSubscription => FailSubscriptionShape(w, s, w.t.sagas[s].sub);
    case SyncFailingSaga => SetStateShape(w, s, Failed, GRPC_REASON);
  }

  lemma SyncCallShape(w: World, a: SyncAction)
    requires EnabledSync(w, a) && !a.SyncWrite?
    ensures ApplySync(w, a).sync.Keys <= w.sync.Keys && ApplySync(w, a).server.Keys <= w.server.Keys
  {}

  lemma SyncKeepsShape(w: World, a: SyncAction)
    requires EnabledSync(w, a)
    ensures SameShape(w, ApplySync(w, a))
  {
    if a.SyncWrite? {
      SyncWriteShape(w, a.saga);
    } else {
      Frames.SyncCalls(w, a);
      Frames.SyncMoves(w, a);
      SyncCallShape(w, a);
      SameTablesSameShape(w, w, ApplySync(w, a));
    }
  }

  lemma OtherKeepsShape(w: World, a: OtherAction)
    requires EnabledOther(w, a)
    ensures SameShape(w, ApplyOther(w, a))
  {}

  /** What a successful T1 leaves behind, table by table. */
  ghost predicate Subscribed(w: World, a: Attempt, reactivate: bool, broker: bool, z: World) {
    && (if reactivate then a.sub in w.t.subs else a.sub !in w.t.subs && !PairTaken(w.t, a.email, a.repo))
    && z.t.subs == w.t.subs[a.sub :=
                     if reactivate then w.t.subs[a.sub].(token := a.token, confirmed := false, status := Pending)
                     else Subscription(a.email, a.repo, a.token, false, Pending)]
    && z.t.sagas == w.t.sagas[a.saga := NewSaga(a, w.now)]
    && z.t.outbox == (if broker then w.t.outbox[a.row := OutboxRow(a.saga, Command(a), None)] else w.t.outbox)
    && z.ids.tokenOf == w.ids.tokenOf[a.saga := a.token]
    && z.ids.rowOf == (if broker then w.ids.rowOf[a.saga := a.row] else w.ids.rowOf)
    && z.ids.grpc == (if broker then w.ids.grpc else w.ids.grpc + {a.saga})
    && z.ids.attempts == w.ids.attempts[a.sub :=
                           if reactivate && a.sub in w.ids.attempts then w.ids.attempts[a.sub] + [a.saga] else [a.saga]]
    && z.ids.nextSub == (if reactivate then w.ids.nextSub else a.sub + 1)
    && z.sync.Keys == (if broker then w.sync.Keys else w.sync.Keys + {a.saga})
    && z.server.Keys == (if broker then w.server.Keys else w.server.Keys + {a.saga})
  }

  lemma SubscribeEffect(w: World, a: Attempt, reactivate: bool, broker: bool)
    requires EnabledUser(w, Subscribe(a, reactivate, broker))
    ensures Subscribed(w, a, reactivate, broker, ApplySubscribe(w, a, reactivate, broker))
  {
    var t1 := UpsertSubscription(w.t, a, reactivate).value;
    var t2 := InsertSaga(t1, a.saga, NewSaga(a, w.now)).value;
    assert T1(w.t, a, reactivate, broker, w.now) == if broker then Enqueue(t2, a.row, a.saga, Command(a)) else Some(t2);
  }

  lemma SubscribeKeepsSagas(w: World, a: Attempt, reactivate: bool, broker: bool, z: World)
    requires TokensDistinct(w) && SagasRecorded(w) && AttemptsAreSagas(w)
    requires FreshAttempt(w, a, reactivate) && Subscribed(w, a, reactivate, broker, z)
    ensures TokensDistinct(z) && SagasRecorded(z)
  {}

  lemma SubscribeKeepsAttempts(w: World, a: Attempt, reactivate: bool, broker: bool, z: World)
    requires NewestToken(w) && AttemptsAreSagas(w)
    requires FreshAttempt(w, a, reactivate) && Subscribed(w, a, reactivate, broker, z)
    ensures AttemptsAreSagas(z)
  {
    forall i | i in z.ids.attempts ensures AreAttemptsOf(z, i, z.ids.attempts[i]) {
      if i in w.ids.attempts { assert AreAttemptsOf(w, i, w.ids.attempts[i]); }
    }
  }

  lemma SubscribeKeepsRows(w: World, a: Attempt, reactivate: bool, broker: bool, z: World)
    requires TokensDistinct(w) && RowsMatchSagas(w)
    requires FreshAttempt(w, a, reactivate) && Subscribed(w, a, reactivate, broker, z)
    ensures RowsMatchSagas(z)
  {
    SubscribeKeepsSplit(w, a, reactivate, broker, z);
    forall s | s in z.ids.rowOf ensures RowOfSaga(z, s) {
      SubscribeKeepsRow(w, a, reactivate, broker, z, s);
    }
    forall r | r in z.t.outbox
      ensures z.t.outbox[r].sagaId in z.ids.rowOf && z.ids.rowOf[z.t.outbox[r].sagaId] == r
    {
      SubscribeKeepsOrigin(w, a, reactivate, broker, z, r);
    }
  }

  lemma SubscribeKeepsOrigin(w: World, a: Attempt, reactivate: bool, broker: bool, z: World, r: nat)
    requires TokensDistinct(w) && RowsMatchSagas(w) && r in z.t.outbox
    requires FreshAttempt(w, a, reactivate) && Subscribed(w, a, reactivate, broker, z)
    ensures z.t.outbox[r].sagaId in z.ids.rowOf && z.ids.rowOf[z.t.outbox[r].sagaId] == r
  {
    if r in w.t.outbox && z.t.outbox[r] == w.t.outbox[r] { assert w.t.outbox[r].sagaId != a.saga; }
  }

  lemma SubscribeKeepsSplit(w: World, a: Attempt, reactivate: bool, broker: bool, z: World)
    requires Split(w) && FreshAttempt(w, a, reactivate) && Subscribed(w, a, reactivate, broker, z)
    ensures Split(z)
  {}

  lemma SubscribeKeepsRow(w: World, a: Attempt, reactivate: bool, broker: bool, z: World, s: SagaId)
    requires TokensDistinct(w) && RowsMatchSagas(w) && s in z.ids.rowOf
    requires FreshAttempt(w, a, reactivate) && Subscribed(w, a, reactivate, broker, z)
    ensures RowOfSaga(z, s)
  {
    if s != a.saga { assert s in w.ids.rowOf && RowOfSaga(w, s) && w.ids.rowOf[s] != a.row; }
  }

  lemma SubscribeKeepsTokens(w: World, a: Attempt, reactivate: bool, broker: bool, z: World)
    requires NewestToken(w) && TokensDistinct(w)
    requires FreshAttempt(w, a, reactivate) && Subscribed(w, a, reactivate, broker, z)
    ensures NewestToken(z)
  {
    forall i | i in z.t.subs
      ensures i in z.ids.attempts && z.ids.attempts[i] != []
      ensures z.ids.attempts[i][|z.ids.attempts[i]| - 1] in z.ids.tokenOf
      ensures z.ids.tokenOf[z.ids.attempts[i][|z.ids.attempts[i]| - 1]] == z.t.subs[i].token
    {
      SubscribeKeepsToken(w, a, reactivate, broker, z, i);
    }
  }

  lemma SubscribeKeepsToken(w: World, a: Attempt, reactivate: bool, broker: bool, z: World, i: SubId)
    requires NewestToken(w) && TokensDistinct(w) && i in z.t.subs
    requires FreshAttempt(w, a, reactivate) && Subscribed(w, a, reactivate, broker, z)
    ensures i in z.ids.attempts && z.ids.attempts[i] != []
    ensures z.ids.attempts[i][|z.ids.attempts[i]| - 1] in z.ids.tokenOf
    ensures z.ids.tokenOf[z.ids.attempts[i][|z.ids.attempts[i]| - 1]] == z.t.subs[i].token
  {
    if i != a.sub {
      assert i in w.t.subs && z.t.subs[i] == w.t.subs[i] && z.ids.attempts[i] == w.ids.attempts[i];
    }
  }

  lemma SubscribeKeepsPairs(w: World, a: Attempt, reactivate: bool, broker: bool, z: World)
    requires OneRowPerPair(w) && Subscribed(w, a, reactivate, broker, z)
    ensures OneRowPerPair(z)
  {}

  lemma SubscribeKeepsInv(w: World, a: Attempt, reactivate: bool, broker: bool)
    requires Inv(w) && EnabledUser(w, Subscribe(a, reactivate, broker))
    ensures Inv(ApplySubscribe(w, a, reactivate, broker))
  {
    var z := ApplySubscribe(w, a, reactivate, broker);
    SubscribeEffect(w, a, reactivate, broker);
    SubscribeKeepsSagas(w, a, reactivate, broker, z);
    SubscribeKeepsRows(w, a, reactivate, broker, z);
    SubscribeKeepsAttempts(w, a, reactivate, broker, z);
    SubscribeKeepsTokens(w, a, reactivate, broker, z);
    SubscribeKeepsPairs(w, a, reactivate, broker, z);
  }

  predicate Subscribes(a: Action) { a.User? && a.user.Subscribe? }

  /** Every step of every actor but T1 keeps the shape. */
  lemma StepKeepsShape(w: World, a: Action)
    requires Enabled(w, a) && !Subscribes(a)
    ensures SameShape(w, Apply(w, a))
  {
    match a
    case User(x) => UserKeepsShape(w, x);
    case Relay(x) => RelayKeepsShape(w, x);
    case Notifier(x) => NotifierKeepsShape(w, x);
    case Consumer(x) => ConsumerKeepsShape(w, x);
    case Sweeper(x) => SweeperKeepsShape(w, x);
    case Sync(x) => SyncKeepsShape(w, x);
    case Other(x) => OtherKeepsShape(w, x);
  }

  lemma StepKeepsInv(w: World, a: Action)
    requires Inv(w) && Enabled(w, a)
    ensures Inv(Apply(w, a))
  {
    if Subscribes(a) {
      SubscribeKeepsInv(w, a.user.a, a.user.reactivate, a.user.broker);
    } else {
      StepKeepsShape(w, a);
      ShapeKeepsInv(w, Apply(w, a));
    }
  }

  lemma {:induction false} RunKeepsInv(w: World, actions: seq<Action>, end: World)
    requires Inv(w) && Run(w, actions, end)
    ensures Inv(end)
    decreases |actions|
  {
    if actions != [] {
      StepKeepsInv(w, actions[0]);
      RunKeepsInv(Apply(w, actions[0]), actions[1..], end);
    }
  }

  // -------------------------------------------------------------------- theorems

  /** `r` is the one row of saga `s` and carries its command, under its own id. */
  ghost predicate OnlyRowOf(w: World, s: SagaId, r: nat) {
    && r in w.t.outbox && w.t.outbox[r].sagaId == s
    && (forall x | x in w.t.outbox && w.t.outbox[x].sagaId == s :: x == r)
    && IsSagaCommand(w.t.outbox[r].message) && w.t.outbox[r].message.body.sagaId == s
    && s in w.ids.tokenOf && w.t.outbox[r].message.messageId == Key(w, s)
  }

  /** In every execution, a broker saga has exactly one outbox row, which carries
      its command; a gRPC saga has none; and there are no other rows. */
  lemma SagasAndRowsMatch(actions: seq<Action>, w: World)
    requires Run(Init(), actions, w)
    ensures forall s | s in w.t.sagas && s !in w.ids.grpc :: exists r :: OnlyRowOf(w, s, r)
    ensures forall r | r in w.t.outbox :: w.t.outbox[r].sagaId in w.t.sagas && w.t.outbox[r].sagaId !in w.ids.grpc
  {
    RunKeepsInv(Init(), actions, w);
    forall s | s in w.t.sagas && s !in w.ids.grpc ensures exists r :: OnlyRowOf(w, s, r) {
      assert RowOfSaga(w, s);
      assert OnlyRowOf(w, s, w.ids.rowOf[s]);
    }
  }

  /** In every execution, the token that confirms a live subscription is the one
      drawn for its newest attempt: over either transport that attempt's message
      id carries it, and over the broker so does its outbox row. */
  lemma CurrentLinkIsNewest(actions: seq<Action>, w: World, i: SubId)
    requires Run(Init(), actions, w) && i in w.t.subs
    ensures i in w.ids.attempts && w.ids.attempts[i] != []
    ensures var s := w.ids.attempts[i][|w.ids.attempts[i]| - 1];
            && s in w.t.sagas && w.t.sagas[s].sub == i
            && s in w.ids.tokenOf && Key(w, s) == ConfirmMessage(w.t.subs[i].token)
            && (s !in w.ids.grpc ==>
                  exists r :: r in w.t.outbox && w.t.outbox[r].sagaId == s &&
                              w.t.outbox[r].message.messageId == ConfirmMessage(w.t.subs[i].token))
  {
    RunKeepsInv(Init(), actions, w);
    assert AreAttemptsOf(w, i, w.ids.attempts[i]);
    var s := w.ids.attempts[i][|w.ids.attempts[i]| - 1];
    if s !in w.ids.grpc {
      assert w.t.outbox[w.ids.rowOf[s]].message.messageId == ConfirmMessage(w.t.subs[i].token);
    }
  }

  /** `s` is not the newest attempt of its subscription. */
  ghost predicate Superseded(w: World, s: SagaId) {
    && s in w.t.sagas && s in w.ids.tokenOf
    && w.t.sagas[s].sub in w.ids.attempts
    && w.ids.attempts[w.t.sagas[s].sub] != []
    && w.ids.attempts[w.t.sagas[s].sub][|w.ids.attempts[w.t.sagas[s].sub]| - 1] != s
  }

  lemma SubscribeKeepsSuperseded(w: World, a: Attempt, reactivate: bool, broker: bool, z: World, s: SagaId)
    requires AttemptsAreSagas(w) && NewestToken(w) && Superseded(w, s)
    requires FreshAttempt(w, a, reactivate) && Subscribed(w, a, reactivate, broker, z)
    ensures Superseded(z, s) && z.ids.tokenOf[s] == w.ids.tokenOf[s]
  {}

  lemma StepKeepsSuperseded(w: World, a: Action, s: SagaId)
    requires Inv(w) && Superseded(w, s) && Enabled(w, a)
    ensures Superseded(Apply(w, a), s) && Apply(w, a).ids.tokenOf[s] == w.ids.tokenOf[s]
  {
    if Subscribes(a) {
      SubscribeEffect(w, a.user.a, a.user.reactivate, a.user.broker);
      SubscribeKeepsSuperseded(w, a.user.a, a.user.reactivate, a.user.broker, Apply(w, a), s);
    } else {
      StepKeepsShape(w, a);
    }
  }

  lemma {:induction false} RunKeepsSuperseded(w: World, actions: seq<Action>, end: World, s: SagaId)
    requires Inv(w) && Superseded(w, s) && Run(w, actions, end)
    ensures Inv(end) && Superseded(end, s) && end.ids.tokenOf[s] == w.ids.tokenOf[s]
    decreases |actions|
  {
    if actions != [] {
      StepKeepsInv(w, actions[0]);
      StepKeepsSuperseded(w, actions[0], s);
      RunKeepsSuperseded(Apply(w, actions[0]), actions[1..], end, s);
    }
  }

  /** Once a newer attempt exists, the link of an older one resolves to no row,
      then and in every later state. */
  lemma SupersededLinkNeverResolves(past: seq<Action>, w: World, future: seq<Action>, end: World, s: SagaId)
    requires Run(Init(), past, w) && Superseded(w, s) && Run(w, future, end)
    ensures !TokenTaken(end.t, w.ids.tokenOf[s])
  {
    RunKeepsInv(Init(), past, w);
    RunKeepsSuperseded(w, future, end, s);
    forall i | i in end.t.subs ensures end.t.subs[i].token != end.ids.tokenOf[s] {
      assert AreAttemptsOf(end, i, end.ids.attempts[i]);
    }
  }
}
