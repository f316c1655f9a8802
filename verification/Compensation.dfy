/** Honest compensation: a failed saga really failed its subscription, and a
    failed subscription really has a saga that decided so. */
module Compensation {
  import opened Model
  import opened Protocol
  import Frames
  import Atomicity
  import Decisions

  ghost predicate HandlersHonest(w: World) {
    && (w.consumer.FailingSaga? ==> w.consumer.r.sagaId in w.audit.compensated)
    && (w.sweeper.SweepFailing? ==> w.sweeper.saga in w.audit.compensated)
    && (forall s | s in w.sync && w.sync[s].SyncFailingSaga? :: s in w.audit.compensated)
  }

  ghost predicate SagasHonest(w: World) {
    && (forall s | s in w.t.sagas && w.t.sagas[s].state.Failed? :: s in w.audit.compensated)
    && (forall s | s in w.audit.compensated :: s in w.t.sagas && Compensated(w.t.sagas[s].state))
  }

  ghost predicate HasDecidedSaga(w: World, i: SubId) {
    exists s :: s in w.t.sagas && w.t.sagas[s].sub == i && Compensated(w.t.sagas[s].state)
  }

  ghost predicate RowsHonest(w: World) {
    forall i | i in w.t.subs && w.t.subs[i].status == MarkedFailed :: HasDecidedSaga(w, i)
  }

  ghost predicate Inv(w: World) { HandlersHonest(w) && SagasHonest(w) && RowsHonest(w) }

  lemma DecidedSagaStays(w: World, z: World, who: set<SagaId>, i: SubId)
    requires HasDecidedSaga(w, i) && Decisions.Moves(w, z, who)
    ensures HasDecidedSaga(z, i)
  {
    var s :| s in w.t.sagas && w.t.sagas[s].sub == i && Compensated(w.t.sagas[s].state);
    assert z.t.sagas[s].sub == i;
  }

  /** No status became failed except that of `changed`, which has its saga. */
  lemma RowsFrame(w: World, z: World, who: set<SagaId>, changed: set<SubId>)
    requires RowsHonest(w) && Decisions.Moves(w, z, who)
    requires forall i | i in z.t.subs && z.t.subs[i].status == MarkedFailed ::
               i in changed || (i in w.t.subs && w.t.subs[i].status == MarkedFailed)
    requires forall i | i in changed :: HasDecidedSaga(w, i)
    ensures RowsHonest(z)
  {
    forall i | i in z.t.subs && z.t.subs[i].status == MarkedFailed ensures HasDecidedSaga(z, i) {
      DecidedSagaStays(w, z, who, i);
    }
  }

  lemma UserStep(w: World, a: UserAction)
    requires Inv(w) && EnabledUser(w, a) && Decisions.Moves(w, ApplyUser(w, a), {})
    ensures Inv(ApplyUser(w, a))
  {
    UserKeepsSagas(w, a);
    UserKeepsRows(w, a);
  }

  lemma UserKeepsSagas(w: World, a: UserAction)
    requires HandlersHonest(w) && SagasHonest(w) && EnabledUser(w, a)
    ensures HandlersHonest(ApplyUser(w, a)) && SagasHonest(ApplyUser(w, a))
  {
    if a.Subscribe? {
      Atomicity.SubscribeEffect(w, a.a, a.reactivate, a.broker);
      SubscribeKeepsStates(w, a.a, a.reactivate, a.broker, ApplyUser(w, a));
    }
  }

  lemma SubscribeKeepsStates(w: World, a: Attempt, reactivate: bool, broker: bool, z: World)
    requires SagasHonest(w) && FreshAttempt(w, a, reactivate) && Atomicity.Subscribed(w, a, reactivate, broker, z)
    requires z.audit.compensated == w.audit.compensated
    ensures SagasHonest(z)
  {}

  lemma UserKeepsRows(w: World, a: UserAction)
    requires RowsHonest(w) && EnabledUser(w, a) && Decisions.Moves(w, ApplyUser(w, a), {})
    ensures RowsHonest(ApplyUser(w, a))
  {
    if a.Subscribe? { Atomicity.SubscribeEffect(w, a.a, a.reactivate, a.broker); }
    RowsFrame(w, ApplyUser(w, a), {}, {});
  }

  /** Nothing the invariant speaks of moved. */
  ghost predicate Quiet(w: World, z: World) {
    && z.t.sagas == w.t.sagas && z.t.subs == w.t.subs && z.audit.compensated == w.audit.compensated
    && z.consumer == w.consumer && z.sweeper == w.sweeper && z.sync == w.sync
  }

  lemma QuietFrame(w: World, z: World)
    requires Inv(w) && Quiet(w, z)
    ensures Inv(z)
  {
    RowsFrame(w, z, {}, {});
  }

  lemma QuietStep(w: World, a: Action)
    requires Inv(w) && Enabled(w, a) && (a.Relay? || a.Notifier? || a.Other?)
    ensures Inv(Apply(w, a))
  {
    match a
    case Relay(x) => Frames.RelayMoves(w, x); QuietFrame(w, ApplyRelay(w, x));
    case Notifier(x) => Frames.NotifierMoves(w, x); QuietFrame(w, ApplyNotifier(w, x));
    case Other(x) => Frames.OtherMoves(w, x); QuietFrame(w, ApplyOther(w, x));
  }

  lemma ConsumerKeepsSagas(w: World, a: ConsumerAction)
    requires HandlersHonest(w) && SagasHonest(w) && Decisions.ConsumerKnows(w) && EnabledConsumer(w, a)
    ensures HandlersHonest(ApplyConsumer(w, a)) && SagasHonest(ApplyConsumer(w, a))
  {
    Frames.ConsumerMoves(w, a);
    if a.Write? { ConsumerWriteKeepsSagas(w); } else { Frames.ConsumerReads(w, a); ConsumerReadKeepsHandlers(w, a); }
  }

  lemma ConsumerReadKeepsHandlers(w: World, a: ConsumerAction)
    requires EnabledConsumer(w, a) && !a.Write?
    ensures !ApplyConsumer(w, a).consumer.FailingSaga? || ApplyConsumer(w, a).consumer == w.consumer
  {}

  lemma ConsumerWriteKeepsSagas(w: World)
    requires HandlersHonest(w) && SagasHonest(w) && Decisions.ConsumerKnows(w) && EnabledConsumer(w, Write)
    ensures HandlersHonest(ApplyConsumer(w, Write)) && SagasHonest(ApplyConsumer(w, Write))
  {
    ConsumerWriteKeepsHandlers(w);
    match w.consumer
    case Deciding(_, _) => ConsumerDecisionKeepsSagas(w);
    case FailingSubscription(_, _) =>
    case FailingSaga(_) =>
  }

  lemma ConsumerWriteKeepsHandlers(w: World)
    requires HandlersHonest(w) && Decisions.ConsumerKnows(w) && EnabledConsumer(w, Write)
    ensures HandlersHonest(ApplyConsumer(w, Write))
  {}

  lemma ConsumerDecisionKeepsSagas(w: World)
    requires SagasHonest(w) && Decisions.ConsumerKnows(w) && EnabledConsumer(w, Write) && w.consumer.Deciding?
    ensures SagasHonest(ApplyConsumer(w, Write))
  {}

  lemma ConsumerKeepsRows(w: World, a: ConsumerAction, who: set<SagaId>)
    requires RowsHonest(w) && Decisions.ConsumerKnows(w) && EnabledConsumer(w, a)
    requires Decisions.Moves(w, ApplyConsumer(w, a), who)
    ensures RowsHonest(ApplyConsumer(w, a))
  {
    var changed := if w.consumer.FailingSubscription? then {w.consumer.sub} else {};
    if w.consumer.FailingSubscription? { assert w.consumer.r.sagaId in w.t.sagas; }
    RowsFrame(w, ApplyConsumer(w, a), who, changed);
  }

  lemma SweeperKeepsSagas(w: World, a: SweeperAction)
    requires HandlersHonest(w) && SagasHonest(w) && Decisions.SweeperKnows(w) && EnabledSweeper(w, a)
    ensures HandlersHonest(ApplySweeper(w, a)) && SagasHonest(ApplySweeper(w, a))
  {
    if a.SweepHead? { assert Decisions.SnapshotHolds(w, w.sweeper.todo[0], w.sweeper.snapshot[w.sweeper.todo[0]]); }
  }

  lemma SweeperKeepsRows(w: World, a: SweeperAction)
    requires RowsHonest(w) && Decisions.SweeperKnows(w) && EnabledSweeper(w, a)
    requires Decisions.Moves(w, ApplySweeper(w, a), {})
    ensures RowsHonest(ApplySweeper(w, a))
  {
    var z := ApplySweeper(w, a);
    if a.SweepHead? && w.sweeper.snapshot[w.sweeper.todo[0]].state.Compensating? {
      var s := w.sweeper.todo[0];
      assert Decisions.SnapshotHolds(w, s, w.sweeper.snapshot[s]);
      RowsFrame(w, z, {}, {w.sweeper.snapshot[s].sub});
    } else {
      RowsFrame(w, z, {}, {});
    }
  }

  lemma SyncKeepsSagas(w: World, a: SyncAction)
    requires HandlersHonest(w) && SagasHonest(w) && Decisions.SyncKnows(w) && EnabledSync(w, a)
    ensures HandlersHonest(ApplySync(w, a)) && SagasHonest(ApplySync(w, a))
  {
    Frames.SyncMoves(w, a);
    if a.SyncWrite? {
      SyncWriteKeepsSagas(w, a.saga);
    } else {
      Frames.SyncCalls(w, a);
      SyncCallKeepsHandlers(w, a);
    }
  }

  lemma SyncCallKeepsHandlers(w: World, a: SyncAction)
    requires EnabledSync(w, a) && !a.SyncWrite?
    ensures forall s | s in ApplySync(w, a).sync && ApplySync(w, a).sync[s].SyncFailingSaga? ::
              s in w.sync && w.sync[s].SyncFailingSaga?
  {}

  lemma SyncWriteKeepsSagas(w: World, s: SagaId)
    requires HandlersHonest(w) && SagasHonest(w) && Decisions.SyncKnows(w) && EnabledSync(w, SyncWrite(s))
    ensures HandlersHonest(ApplySync(w, SyncWrite(s))) && SagasHonest(ApplySync(w, SyncWrite(s)))
  {
    assert Decisions.CallerKnows(w, s, w.sync[s]);
    SyncWriteKeepsHandlers(w, s);
    SyncWriteKeepsStates(w, s);
  }

  lemma SyncWriteKeepsHandlers(w: World, s: SagaId)
    requires HandlersHonest(w) && EnabledSync(w, SyncWrite(s)) && Decisions.CallerKnows(w, s, w.sync[s])
    ensures HandlersHonest(ApplySync(w, SyncWrite(s)))
  {}

  lemma SyncWriteKeepsStates(w: World, s: SagaId)
    requires HandlersHonest(w) && SagasHonest(w) && EnabledSync(w, SyncWrite(s)) && Decisions.CallerKnows(w, s, w.sync[s])
    ensures SagasHonest(ApplySync(w, SyncWrite(s)))
  {}

  lemma SyncKeepsRows(w: World, a: SyncAction, who: set<SagaId>)
    requires RowsHonest(w) && Decisions.SyncKnows(w) && EnabledSync(w, a)
    requires Decisions.Moves(w, ApplySync(w, a), who)
    ensures RowsHonest(ApplySync(w, a))
  {
    var z := ApplySync(w, a);
    if a.SyncWrite? && w.sync[a.saga].SyncFailingSubscription? {
      assert Decisions.CallerKnows(w, a.saga, w.sync[a.saga]);
      RowsFrame(w, z, who, {w.t.sagas[a.saga].sub});
    } else {
      RowsFrame(w, z, who, {});
    }
  }

  lemma StepKeepsInv(w: World, a: Action)
    requires Atomicity.Inv(w) && Decisions.Inv(w) && Inv(w) && Enabled(w, a)
    ensures Inv(Apply(w, a))
  {
    match a
    case User(x) => Decisions.UserStep(w, x); UserStep(w, x);
    case Consumer(x) =>
      Decisions.ConsumerStep(w, x);
      ConsumerKeepsSagas(w, x);
      ConsumerKeepsRows(w, x, if w.consumer.ReplyIdle? then {} else {w.consumer.r.sagaId});
    case Sweeper(x) =>
      Decisions.SweeperStep(w, x);
      SweeperKeepsSagas(w, x);
      SweeperKeepsRows(w, x);
    case Sync(x) =>
      Decisions.SyncStep(w, x);
      SyncKeepsSagas(w, x);
      SyncKeepsRows(w, x, if x.SyncWrite? then {x.saga} else {});
    case _ => QuietStep(w, a);
  }

  lemma {:induction false} RunKeepsInv(w: World, actions: seq<Action>, end: World)
    requires Atomicity.Inv(w) && Decisions.Inv(w) && Inv(w) && Run(w, actions, end)
    ensures Inv(end)
    decreases |actions|
  {
    if actions != [] {
      Atomicity.StepKeepsInv(w, actions[0]);
      Decisions.StepKeepsInv(w, actions[0]);
      StepKeepsInv(w, actions[0]);
      RunKeepsInv(Apply(w, actions[0]), actions[1..], end);
    }
  }

  /** In every execution, a failed saga had its subscription marked failed while
      it was compensating or failed, and every failed subscription has a saga
      that decided against it. */
  lemma CompensationIsHonest(actions: seq<Action>, w: World)
    requires Run(Init(), actions, w)
    ensures forall s | s in w.t.sagas && w.t.sagas[s].state.Failed? :: s in w.audit.compensated
    ensures forall i | i in w.t.subs && w.t.subs[i].status == MarkedFailed ::
              exists s :: s in w.t.sagas && w.t.sagas[s].sub == i && Compensated(w.t.sagas[s].state)
  {
    RunKeepsInv(Init(), actions, w);
    forall i | i in w.t.subs && w.t.subs[i].status == MarkedFailed
      ensures exists s :: s in w.t.sagas && w.t.sagas[s].sub == i && Compensated(w.t.sagas[s].state)
    { assert HasDecidedSaga(w, i); }
  }
}
