/** Decision stability: a saga that has left `subscription_created` never changes
    its mind, although no statement that moves it is guarded and every handler
    acts on values it read earlier. */
module Decisions {
  import opened Model
  import opened Protocol
  import Frames
  import Atomicity

  // -------------------------------------------------------------- provenance

  ghost predicate Owned(w: World, d: Delivery) {
    if IsSagaCommand(d) then
      && d.body.sagaId in w.ids.rowOf
      && d.body.sagaId in w.ids.tokenOf
      && d.messageId == Key(w, d.body.sagaId)
    else
      !d.messageId.ConfirmMessage?
  }

  /** Every saga command on its way is the command of a broker saga. */
  ghost predicate CommandsOwned(w: World) {
    && (forall i | 0 <= i < |w.commands| :: Owned(w, w.commands[i]))
    && (!w.notifier.NotifierIdle? ==> Owned(w, w.notifier.d))
    && (w.notifier.Replying? ==> IsSagaCommand(w.notifier.d))
    && (w.notifier.Marking? ==> !w.notifier.d.messageId.NoId?)
    && (w.notifier.ReadingDedup? ==> !w.notifier.d.messageId.NoId?)
  }

  /** No reply on its way names a gRPC saga. */
  ghost predicate RepliesOwned(w: World) {
    && (forall i | 0 <= i < |w.replies| :: w.replies[i].sagaId in w.ids.rowOf)
    && (!w.consumer.ReplyIdle? ==> w.consumer.r.sagaId in w.ids.rowOf)
  }

  ghost predicate Provenance(w: World) { CommandsOwned(w) && RepliesOwned(w) }

  // ------------------------------------------- what in-flight handlers may rely on

  ghost predicate ConsumerKnows(w: World) {
    match w.consumer
    case ReplyIdle => true
    case Loading(_) => true
    case Deciding(r, saga) =>
      && r.sagaId in w.t.sagas
      && saga.sub == w.t.sagas[r.sagaId].sub
      && Acts(r, saga.state)
      && (saga.state.SubscriptionCreated? ==> w.t.sagas[r.sagaId].state.SubscriptionCreated?)
      && (saga.state.Compensating? ==> Compensated(w.t.sagas[r.sagaId].state))
    case FailingSubscription(r, sub) =>
      && r.sagaId in w.t.sagas
      && sub == w.t.sagas[r.sagaId].sub
      && r.status.NotSent?
      && Compensated(w.t.sagas[r.sagaId].state)
    case FailingSaga(r) =>
      r.sagaId in w.t.sagas && r.status.NotSent? && Compensated(w.t.sagas[r.sagaId].state)
    case Acking(r) =>
      && r.sagaId in w.t.sagas
      && (!r.status.UnknownStatus? ==> !w.t.sagas[r.sagaId].state.SubscriptionCreated?)
  }

  ghost predicate SnapshotHolds(w: World, s: SagaId, saga: Saga) {
    && s in w.t.sagas
    && saga.sub == w.t.sagas[s].sub
    && !Terminal(saga.state)
    && (saga.state.Compensating? ==> Compensated(w.t.sagas[s].state))
  }

  ghost predicate SweeperKnows(w: World) {
    match w.sweeper
    case SweepIdle => true
    case SweepNext(_, snapshot) => forall s | s in snapshot :: SnapshotHolds(w, s, snapshot[s])
    case SweepFailing(s, _, snapshot) =>
      && s in w.t.sagas && Compensated(w.t.sagas[s].state)
      && (forall z | z in snapshot :: SnapshotHolds(w, z, snapshot[z]))
  }

  ghost predicate CallerKnows(w: World, s: SagaId, pc: SyncPc) {
    && s in w.t.sagas
    && (if pc.SyncFailingSubscription? || pc.SyncFailingSaga? then Compensated(w.t.sagas[s].state)
        else w.t.sagas[s].state.SubscriptionCreated?)
  }

  ghost predicate SyncKnows(w: World) {
    forall s | s in w.sync :: CallerKnows(w, s, w.sync[s])
  }

  ghost predicate Inv(w: World) {
    Provenance(w) && ConsumerKnows(w) && SweeperKnows(w) && SyncKnows(w)
  }

  // ---------------------------------------------------------------- the theorem

  predicate Follows(before: SagaState, after: SagaState) {
    && (before.Completed? ==> after.Completed?)
    && (Compensated(before) ==> Compensated(after))
  }

  /** No saga of `w` has changed its mind in `z`. */
  ghost predicate Stable(w: World, z: World) {
    forall s | s in w.t.sagas :: s in z.t.sagas && Follows(w.t.sagas[s].state, z.t.sagas[s].state)
  }

  // --------------------------------------------------------------- preservation

  /** Sagas only move forward, and only those in `who` may leave
      `subscription_created`. */
  ghost predicate Moves(w: World, z: World, who: set<SagaId>) {
    forall s | s in w.t.sagas ::
      && s in z.t.sagas
      && z.t.sagas[s].sub == w.t.sagas[s].sub
      && Follows(w.t.sagas[s].state, z.t.sagas[s].state)
      && (s !in who && w.t.sagas[s].state.SubscriptionCreated? ==> z.t.sagas[s].state.SubscriptionCreated?)
  }

  lemma ConsumerFrame(w: World, z: World, who: set<SagaId>)
    requires ConsumerKnows(w) && Moves(w, z, who) && z.consumer == w.consumer
    requires !w.consumer.ReplyIdle? ==> w.consumer.r.sagaId !in who
    ensures ConsumerKnows(z)
  {}

  lemma SweeperFrame(w: World, z: World, who: set<SagaId>)
    requires SweeperKnows(w) && Moves(w, z, who) && z.sweeper == w.sweeper
    ensures SweeperKnows(z)
  {
    match w.sweeper
    case SweepIdle =>
    case SweepNext(_, snapshot) =>
      forall s | s in snapshot ensures SnapshotHolds(z, s, snapshot[s]) { assert SnapshotHolds(w, s, snapshot[s]); }
    case SweepFailing(_, _, snapshot) =>
      forall s | s in snapshot ensures SnapshotHolds(z, s, snapshot[s]) { assert SnapshotHolds(w, s, snapshot[s]); }
  }

  lemma SyncFrame(w: World, z: World, who: set<SagaId>)
    requires SyncKnows(w) && Moves(w, z, who) && z.sync == w.sync && z.sync.Keys !! who
    ensures SyncKnows(z)
  {
    forall s | s in z.sync ensures CallerKnows(z, s, z.sync[s]) { assert CallerKnows(w, s, w.sync[s]); }
  }

  lemma ProvenanceFrame(w: World, z: World)
    requires Provenance(w)
    requires z.commands == w.commands && z.notifier == w.notifier
    requires z.replies == w.replies && z.consumer == w.consumer
    requires w.ids.rowOf.Keys <= z.ids.rowOf.Keys
    requires forall s | s in w.ids.tokenOf :: s in z.ids.tokenOf && z.ids.tokenOf[s] == w.ids.tokenOf[s]
    ensures Provenance(z)
  {
    forall i | 0 <= i < |z.commands| ensures Owned(z, z.commands[i]) { assert Owned(w, w.commands[i]); }
    if !w.notifier.NotifierIdle? { assert Owned(w, w.notifier.d); }
  }

  lemma SubscribeMoves(w: World, a: Attempt, reactivate: bool, broker: bool, z: World)
    requires Atomicity.TokensDistinct(w) && Atomicity.RowsMatchSagas(w)
    requires FreshAttempt(w, a, reactivate) && Atomicity.Subscribed(w, a, reactivate, broker, z)
    ensures Moves(w, z, {})
  {}

  lemma SubscribeKeepsProvenance(w: World, a: Attempt, reactivate: bool, broker: bool, z: World)
    requires Atomicity.TokensDistinct(w) && Atomicity.RowsMatchSagas(w) && Provenance(w)
    requires FreshAttempt(w, a, reactivate) && Atomicity.Subscribed(w, a, reactivate, broker, z)
    requires z.commands == w.commands && z.notifier == w.notifier
    requires z.replies == w.replies && z.consumer == w.consumer
    ensures Provenance(z)
  {
    ProvenanceFrame(w, z);
  }

  lemma SubscribeStep(w: World, a: UserAction)
    requires Atomicity.Inv(w) && Inv(w) && a.Subscribe? && EnabledUser(w, a)
    ensures Inv(ApplyUser(w, a)) && Moves(w, ApplyUser(w, a), {})
  {
    var z := ApplyUser(w, a);
    Atomicity.SubscribeEffect(w, a.a, a.reactivate, a.broker);
    SubscribeMoves(w, a.a, a.reactivate, a.broker, z);
    SubscribeKeepsProvenance(w, a.a, a.reactivate, a.broker, z);
    ConsumerFrame(w, z, {});
    SweeperFrame(w, z, {});
    forall s | s in z.sync ensures CallerKnows(z, s, z.sync[s]) {
      if s in w.sync { assert CallerKnows(w, s, w.sync[s]); }
    }
  }

  lemma UserStep(w: World, a: UserAction)
    requires Atomicity.Inv(w) && Inv(w) && EnabledUser(w, a)
    ensures Inv(ApplyUser(w, a)) && Moves(w, ApplyUser(w, a), {})
  {
    if a.Subscribe? {
      SubscribeStep(w, a);
    } else {
      var z := ApplyUser(w, a);
      ProvenanceFrame(w, z);
      ConsumerFrame(w, z, {});
      SweeperFrame(w, z, {});
      SyncFrame(w, z, {});
    }
  }

  /** No saga and none of the three writers moved. */
  lemma HandlersStand(w: World, z: World)
    requires ConsumerKnows(w) && SweeperKnows(w) && SyncKnows(w)
    requires z.t.sagas == w.t.sagas && z.consumer == w.consumer && z.sweeper == w.sweeper && z.sync == w.sync
    ensures ConsumerKnows(z) && SweeperKnows(z) && SyncKnows(z) && Moves(w, z, {})
  {
    ConsumerFrame(w, z, {});
    SweeperFrame(w, z, {});
    SyncFrame(w, z, {});
  }

  lemma RelayKeepsProvenance(w: World, a: RelayAction)
    requires Atomicity.RowsMatchSagas(w) && Provenance(w) && EnabledRelay(w, a)
    ensures Provenance(ApplyRelay(w, a))
  {
    var z := ApplyRelay(w, a);
    if a.Publish? && a.ok {
      var row := w.relay.batch[0];
      assert Atomicity.RowOfSaga(w, w.t.outbox[row].sagaId);
      forall i | 0 <= i < |z.commands| ensures Owned(z, z.commands[i]) {
        if i < |w.commands| { assert Owned(w, w.commands[i]); }
      }
      if !w.notifier.NotifierIdle? { assert Owned(w, w.notifier.d); }
    } else {
      ProvenanceFrame(w, z);
    }
  }

  lemma RelayStep(w: World, a: RelayAction)
    requires Atomicity.Inv(w) && Inv(w) && EnabledRelay(w, a)
    ensures Inv(ApplyRelay(w, a)) && Moves(w, ApplyRelay(w, a), {})
  {
    RelayKeepsProvenance(w, a);
    Frames.RelayMoves(w, a);
    HandlersStand(w, ApplyRelay(w, a));
  }

  lemma NotifierKeepsCommands(w: World, a: NotifierAction)
    requires CommandsOwned(w) && EnabledNotifier(w, a)
    ensures CommandsOwned(ApplyNotifier(w, a))
  {
    var z := ApplyNotifier(w, a);
    assert forall d | Owned(w, d) :: Owned(z, d);
  }

  lemma NotifierKeepsReplies(w: World, a: NotifierAction)
    requires CommandsOwned(w) && RepliesOwned(w) && EnabledNotifier(w, a)
    ensures RepliesOwned(ApplyNotifier(w, a))
  {
    assert !w.notifier.NotifierIdle? ==> Owned(w, w.notifier.d);
  }

  lemma NotifierStep(w: World, a: NotifierAction)
    requires Inv(w) && EnabledNotifier(w, a)
    ensures Inv(ApplyNotifier(w, a)) && Moves(w, ApplyNotifier(w, a), {})
  {
    NotifierKeepsCommands(w, a);
    NotifierKeepsReplies(w, a);
    Frames.NotifierMoves(w, a);
    HandlersStand(w, ApplyNotifier(w, a));
  }

  /** The consumer's own writes are safe because nobody else decides a broker
      saga: what it read still decides. */
  lemma ConsumerDecides(w: World, a: ConsumerAction)
    requires ConsumerKnows(w) && RepliesOwned(w) && EnabledConsumer(w, a)
    requires w.ids.rowOf.Keys <= w.t.sagas.Keys
    ensures ConsumerKnows(ApplyConsumer(w, a))
    ensures Moves(w, ApplyConsumer(w, a), if w.consumer.ReplyIdle? then {} else {w.consumer.r.sagaId})
  {
    if a.Write? { ConsumerWriteDecides(w); } else { ConsumerReadDecides(w, a); }
  }

  lemma ConsumerWriteDecides(w: World)
    requires ConsumerKnows(w) && EnabledConsumer(w, Write)
    ensures ConsumerKnows(ApplyConsumer(w, Write)) && Moves(w, ApplyConsumer(w, Write), {w.consumer.r.sagaId})
  {}

  lemma ConsumerReadDecides(w: World, a: ConsumerAction)
    requires ConsumerKnows(w) && RepliesOwned(w) && EnabledConsumer(w, a) && !a.Write?
    requires w.ids.rowOf.Keys <= w.t.sagas.Keys
    ensures ConsumerKnows(ApplyConsumer(w, a)) && Moves(w, ApplyConsumer(w, a), {})
  {}

  lemma ConsumerKeepsProvenance(w: World, a: ConsumerAction)
    requires Provenance(w) && EnabledConsumer(w, a)
    ensures Provenance(ApplyConsumer(w, a))
    ensures ApplyConsumer(w, a).sweeper == w.sweeper && ApplyConsumer(w, a).sync == w.sync
  {
    Frames.ConsumerMoves(w, a);
    SameCommandsOwned(w, ApplyConsumer(w, a));
    ConsumerKeepsReplies(w, a);
  }

  lemma SameCommandsOwned(w: World, z: World)
    requires CommandsOwned(w) && z.commands == w.commands && z.notifier == w.notifier && z.ids == w.ids
    ensures CommandsOwned(z)
  {
    assert forall d | Owned(w, d) :: Owned(z, d);
  }

  lemma ConsumerKeepsReplies(w: World, a: ConsumerAction)
    requires RepliesOwned(w) && EnabledConsumer(w, a)
    ensures RepliesOwned(ApplyConsumer(w, a))
  {}

  lemma ConsumerStep(w: World, a: ConsumerAction)
    requires Atomicity.Inv(w) && Inv(w) && EnabledConsumer(w, a)
    ensures Inv(ApplyConsumer(w, a))
    ensures Moves(w, ApplyConsumer(w, a), if w.consumer.ReplyIdle? then {} else {w.consumer.r.sagaId})
  {
    var z := ApplyConsumer(w, a);
    var who := if w.consumer.ReplyIdle? then {} else {w.consumer.r.sagaId};
    ConsumerDecides(w, a);
    ConsumerKeepsProvenance(w, a);
    SweeperFrame(w, z, who);
    SyncFrame(w, z, who);
  }

  lemma SweeperDecides(w: World, a: SweeperAction)
    requires SweeperKnows(w) && EnabledSweeper(w, a)
    ensures SweeperKnows(ApplySweeper(w, a)) && Moves(w, ApplySweeper(w, a), {})
  {
    var z := ApplySweeper(w, a);
    match w.sweeper
    case SweepIdle =>
    case SweepNext(todo, snapshot) =>
      if todo != [] && todo[0] in snapshot { assert SnapshotHolds(w, todo[0], snapshot[todo[0]]); }
      assert Moves(w, z, {});
      forall s | s in snapshot ensures SnapshotHolds(z, s, snapshot[s]) { assert SnapshotHolds(w, s, snapshot[s]); }
    case SweepFailing(_, _, snapshot) =>
      assert Moves(w, z, {});
      forall s | s in snapshot ensures SnapshotHolds(z, s, snapshot[s]) { assert SnapshotHolds(w, s, snapshot[s]); }
  }

  lemma SweeperStep(w: World, a: SweeperAction)
    requires Atomicity.Inv(w) && Inv(w) && EnabledSweeper(w, a)
    ensures Inv(ApplySweeper(w, a)) && Moves(w, ApplySweeper(w, a), {})
  {
    SweeperDecides(w, a);
    Frames.SweeperMoves(w, a);
    OthersStandBySweeper(w, ApplySweeper(w, a));
  }

  lemma OthersStandBySweeper(w: World, z: World)
    requires Inv(w) && Frames.OnlySweeper(w, z) && Moves(w, z, {})
    ensures Provenance(z) && ConsumerKnows(z) && SyncKnows(z)
  {
    ProvenanceFrame(w, z);
    ConsumerFrame(w, z, {});
    SyncFrame(w, z, {});
  }

  lemma SyncDecides(w: World, a: SyncAction)
    requires SyncKnows(w) && EnabledSync(w, a)
    ensures SyncKnows(ApplySync(w, a))
    ensures Moves(w, ApplySync(w, a), if a.SyncWrite? then {a.saga} else {})
  {
    if a.SyncWrite? {
      SyncWriteDecides(w, a.saga);
    } else {
      Frames.SyncCalls(w, a);
      SyncCallMoves(w, a);
      forall s | s in ApplySync(w, a).sync ensures CallerKnows(ApplySync(w, a), s, ApplySync(w, a).sync[s]) {
        assert CallerKnows(w, s, w.sync[s]);
      }
    }
  }

  lemma SyncCallMoves(w: World, a: SyncAction)
    requires EnabledSync(w, a) && !a.SyncWrite?
    ensures forall s | s in ApplySync(w, a).sync ::
              s in w.sync && (ApplySync(w, a).sync[s] == w.sync[s] ||
                              (w.sync[s].Calling? && (ApplySync(w, a).sync[s].Completing? || ApplySync(w, a).sync[s].SyncCompensating?)))
  {}

  lemma SyncWriteDecides(w: World, s: SagaId)
    requires SyncKnows(w) && EnabledSync(w, SyncWrite(s))
    ensures SyncKnows(ApplySync(w, SyncWrite(s))) && Moves(w, ApplySync(w, SyncWrite(s)), {s})
  {
    var z := ApplySync(w, SyncWrite(s));
    assert CallerKnows(w, s, w.sync[s]);
    forall x | x in z.sync ensures CallerKnows(z, x, z.sync[x]) { assert CallerKnows(w, x, w.sync[x]); }
  }

  lemma SyncKeepsProvenance(w: World, a: SyncAction)
    requires Provenance(w) && EnabledSync(w, a)
    ensures Provenance(ApplySync(w, a))
    ensures ApplySync(w, a).sweeper == w.sweeper && ApplySync(w, a).consumer == w.consumer
  {
    ProvenanceFrame(w, ApplySync(w, a));
  }

  lemma SyncStep(w: World, a: SyncAction)
    requires Atomicity.Inv(w) && Inv(w) && EnabledSync(w, a)
    ensures Inv(ApplySync(w, a))
    ensures Moves(w, ApplySync(w, a), if a.SyncWrite? then {a.saga} else {})
  {
    var z := ApplySync(w, a);
    var who := if a.SyncWrite? then {a.saga} else {};
    SyncDecides(w, a);
    SyncKeepsProvenance(w, a);
    ConsumerFrame(w, z, who);
    SweeperFrame(w, z, who);
  }

  lemma OtherStep(w: World, a: OtherAction)
    requires Inv(w) && EnabledOther(w, a)
    ensures Inv(ApplyOther(w, a)) && Moves(w, ApplyOther(w, a), {})
  {
    var z := ApplyOther(w, a);
    assert Provenance(z) by {
      forall d | Owned(w, d) ensures Owned(z, d) {}
    }
    ConsumerFrame(w, z, {});
    SweeperFrame(w, z, {});
    SyncFrame(w, z, {});
  }

  lemma StepKeepsInv(w: World, a: Action)
    requires Atomicity.Inv(w) && Inv(w) && Enabled(w, a)
    ensures Inv(Apply(w, a)) && Stable(w, Apply(w, a))
  {
    match a
    case User(x) => UserStep(w, x);
    case Relay(x) => RelayStep(w, x);
    case Notifier(x) => NotifierStep(w, x);
    case Consumer(x) => ConsumerStep(w, x);
    case Sweeper(x) => SweeperStep(w, x);
    case Sync(x) => SyncStep(w, x);
    case Other(x) => OtherStep(w, x);
  }

  lemma CompletedStays(w: World, a: Action, s: SagaId)
    requires Enabled(w, a) && s in w.t.sagas && w.t.sagas[s].state.Completed? && Inv(w) && Atomicity.Inv(w)
    ensures s in Apply(w, a).t.sagas && Apply(w, a).t.sagas[s].state.Completed?
  {
    StepKeepsInv(w, a);
  }

  lemma StableTransitive(w: World, m: World, z: World)
    requires Stable(w, m) && Stable(m, z)
    ensures Stable(w, z)
  {}

  /** In every run from every state the invariants admit, every decision stands. */
  lemma {:induction false} RunIsStable(w: World, actions: seq<Action>, end: World)
    requires Atomicity.Inv(w) && Inv(w) && Run(w, actions, end)
    ensures Atomicity.Inv(end) && Inv(end) && Stable(w, end)
    decreases |actions|
  {
    if actions != [] {
      Atomicity.StepKeepsInv(w, actions[0]);
      StepKeepsInv(w, actions[0]);
      RunIsStable(Apply(w, actions[0]), actions[1..], end);
      StableTransitive(w, Apply(w, actions[0]), end);
    }
  }

  /** Decision stability over whole executions: whatever happens up to `mid`, a
      saga that is completed there is completed ever after, and one that is
      compensating or failed there never leaves those two states. */
  lemma DecisionsStand(past: seq<Action>, mid: World, future: seq<Action>, end: World, s: SagaId)
    requires Run(Init(), past, mid) && Run(mid, future, end)
    requires s in mid.t.sagas
    ensures s in end.t.sagas
    ensures mid.t.sagas[s].state.Completed? ==> end.t.sagas[s].state.Completed?
    ensures Compensated(mid.t.sagas[s].state) ==> Compensated(end.t.sagas[s].state)
  {
    RunIsStable(Init(), past, mid);
    RunIsStable(mid, future, end);
  }
}
