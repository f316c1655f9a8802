/** A completed saga is evidence of an email: over gRPC, of an accepted send;
    over the broker, of an accepted send or of a "failed" reply whose command was
    then marked as processed all the same. That mark is the only way to a false
    "sent". */
module Evidence {
  import opened Model
  import opened Protocol
  import Atomicity
  import Decisions
  import Frames

  ghost predicate Emailed(w: World, s: SagaId) {
    s in w.ids.tokenOf && w.mail.sends[Key(w, s)] > 0
  }

  ghost predicate Backed(w: World, s: SagaId) {
    Emailed(w, s) || s in w.audit.unsent
  }

  // ------------------------------------------------------------------- invariant

  ghost predicate RepliesBacked(w: World) {
    && (forall i | 0 <= i < |w.replies| && w.replies[i].status.Sent? :: Backed(w, w.replies[i].sagaId))
    && (!w.consumer.ReplyIdle? && w.consumer.r.status.Sent? ==> Backed(w, w.consumer.r.sagaId))
  }

  ghost predicate NotifierBacked(w: World) {
    match w.notifier
    case Reporting(d) => IsSagaCommand(d) ==> Backed(w, d.body.sagaId)
    case Replying(d, sent) => IsSagaCommand(d) && sent ==> Emailed(w, d.body.sagaId)
    case Marking(d, sent) =>
      IsSagaCommand(d) ==> if sent then Emailed(w, d.body.sagaId) else d.body.sagaId in w.audit.refused
    case _ => true
  }

  ghost predicate DedupBacked(w: World) {
    && (forall s | s in w.ids.rowOf && s in w.ids.tokenOf && Key(w, s) in w.dedup :: Backed(w, s))
    && (forall s | s in w.ids.grpc && s in w.ids.tokenOf && Key(w, s) in w.dedup :: Emailed(w, s))
  }

  ghost predicate CompletedBacked(w: World) {
    && (forall s | s in w.ids.rowOf && s in w.t.sagas && w.t.sagas[s].state.Completed? :: Backed(w, s))
    && (forall s | s in w.ids.grpc && s in w.t.sagas && w.t.sagas[s].state.Completed? :: Emailed(w, s))
  }

  ghost predicate CallersBacked(w: World) {
    && (forall s | s in w.server && (w.server[s].ServerMarking? || w.server[s].ServerDone?) :: Emailed(w, s))
    && (forall s | s in w.sync && w.sync[s].Completing? :: Emailed(w, s))
  }

  /** A confirmation key in the dedup set belongs to an attempt that exists. */
  ghost predicate DedupKnown(w: World) {
    forall k | k in w.dedup && k.ConfirmMessage? :: k.token in w.ids.tokenOf.Values
  }

  ghost predicate Inv(w: World) {
    && w.audit.unsent <= w.audit.refused
    && DedupKnown(w) && RepliesBacked(w) && NotifierBacked(w) && DedupBacked(w) && CompletedBacked(w) && CallersBacked(w)
  }

  // ---------------------------------------------------------------------- frames

  /** Evidence is never taken back. */
  ghost predicate Grows(w: World, z: World) {
    && (forall s | s in w.ids.tokenOf :: s in z.ids.tokenOf && z.ids.tokenOf[s] == w.ids.tokenOf[s])
    && w.mail.sends <= z.mail.sends
    && w.audit.refused <= z.audit.refused
    && w.audit.unsent <= z.audit.unsent
  }

  lemma BackedGrows(w: World, z: World, s: SagaId)
    requires Grows(w, z)
    ensures Emailed(w, s) ==> Emailed(z, s)
    ensures Backed(w, s) ==> Backed(z, s)
  {}

  lemma RepliesFrame(w: World, z: World)
    requires RepliesBacked(w) && Grows(w, z) && z.replies == w.replies && z.consumer == w.consumer
    ensures RepliesBacked(z)
  {
    forall s ensures Backed(w, s) ==> Backed(z, s) { BackedGrows(w, z, s); }
  }

  lemma NotifierFrame(w: World, z: World)
    requires NotifierBacked(w) && Grows(w, z) && z.notifier == w.notifier
    ensures NotifierBacked(z)
  {
    if !w.notifier.NotifierIdle? && IsSagaCommand(w.notifier.d) { BackedGrows(w, z, w.notifier.d.body.sagaId); }
  }

  lemma DedupFrame(w: World, z: World)
    requires DedupBacked(w) && Grows(w, z) && z.dedup <= w.dedup && z.ids == w.ids
    ensures DedupBacked(z)
  {
    forall s ensures (Backed(w, s) ==> Backed(z, s)) && (Emailed(w, s) ==> Emailed(z, s)) { BackedGrows(w, z, s); }
  }

  lemma CompletedFrame(w: World, z: World)
    requires CompletedBacked(w) && Grows(w, z) && z.ids == w.ids
    requires forall s | s in z.t.sagas && z.t.sagas[s].state.Completed? :: s in w.t.sagas && w.t.sagas[s].state.Completed?
    ensures CompletedBacked(z)
  {
    forall s ensures (Backed(w, s) ==> Backed(z, s)) && (Emailed(w, s) ==> Emailed(z, s)) { BackedGrows(w, z, s); }
  }

  lemma CallersFrame(w: World, z: World)
    requires CallersBacked(w) && Grows(w, z)
    requires forall s | s in z.sync :: s in w.sync && z.sync[s] == w.sync[s]
    requires forall s | s in z.server :: s in w.server && z.server[s] == w.server[s]
    ensures CallersBacked(z)
  {
    forall s ensures Emailed(w, s) ==> Emailed(z, s) { BackedGrows(w, z, s); }
  }

  // ----------------------------------------------------------------------- steps

  lemma SubscribeKeepsDedup(w: World, a: Attempt, reactivate: bool, broker: bool, z: World)
    requires DedupKnown(w) && DedupBacked(w) && Grows(w, z)
    requires FreshAttempt(w, a, reactivate) && Atomicity.Subscribed(w, a, reactivate, broker, z)
    requires w.t.sagas.Keys == w.ids.tokenOf.Keys && w.ids.rowOf.Keys + w.ids.grpc <= w.t.sagas.Keys
    requires z.dedup == w.dedup
    ensures DedupKnown(z) && DedupBacked(z)
  {
    forall s ensures (Backed(w, s) ==> Backed(z, s)) && (Emailed(w, s) ==> Emailed(z, s)) { BackedGrows(w, z, s); }
    assert ConfirmMessage(a.token) !in w.dedup;
    forall k | k in z.dedup && k.ConfirmMessage? ensures k.token in z.ids.tokenOf.Values {
      var s :| s in w.ids.tokenOf && w.ids.tokenOf[s] == k.token;
      assert z.ids.tokenOf[s] == k.token;
    }
  }

  lemma SubscribeKeepsCompleted(w: World, a: Attempt, reactivate: bool, broker: bool, z: World)
    requires CompletedBacked(w) && Grows(w, z)
    requires FreshAttempt(w, a, reactivate) && Atomicity.Subscribed(w, a, reactivate, broker, z)
    ensures CompletedBacked(z)
  {
    forall s ensures (Backed(w, s) ==> Backed(z, s)) && (Emailed(w, s) ==> Emailed(z, s)) { BackedGrows(w, z, s); }
  }

  lemma SubscribeKeepsCallers(w: World, a: UserAction)
    requires CallersBacked(w) && a.Subscribe? && EnabledUser(w, a) && Grows(w, ApplyUser(w, a))
    ensures CallersBacked(ApplyUser(w, a))
  {
    var z := ApplyUser(w, a);
    forall s ensures Emailed(w, s) ==> Emailed(z, s) { BackedGrows(w, z, s); }
  }

  lemma UserStep(w: World, a: UserAction)
    requires Atomicity.Inv(w) && Inv(w) && EnabledUser(w, a)
    ensures Inv(ApplyUser(w, a))
  {
    var z := ApplyUser(w, a);
    assert Grows(w, z);
    RepliesFrame(w, z);
    NotifierFrame(w, z);
    if a.Subscribe? {
      Atomicity.SubscribeEffect(w, a.a, a.reactivate, a.broker);
      SubscribeKeepsDedup(w, a.a, a.reactivate, a.broker, z);
      SubscribeKeepsCompleted(w, a.a, a.reactivate, a.broker, z);
      SubscribeKeepsCallers(w, a);
    } else {
      DedupFrame(w, z);
      CompletedFrame(w, z);
      CallersFrame(w, z);
    }
  }

  lemma RelayStep(w: World, a: RelayAction)
    requires Inv(w) && EnabledRelay(w, a)
    ensures Inv(ApplyRelay(w, a))
  {
    var z := ApplyRelay(w, a);
    RepliesFrame(w, z);
    NotifierFrame(w, z);
    DedupFrame(w, z);
    CompletedFrame(w, z);
    CallersFrame(w, z);
  }

  lemma NotifierGrows(w: World, a: NotifierAction)
    requires EnabledNotifier(w, a)
    ensures Grows(w, ApplyNotifier(w, a))
  {}

  lemma NotifierKeepsReplies(w: World, a: NotifierAction)
    requires RepliesBacked(w) && NotifierBacked(w) && EnabledNotifier(w, a)
    ensures RepliesBacked(ApplyNotifier(w, a))
  {
    var z := ApplyNotifier(w, a);
    NotifierGrows(w, a);
    if z.replies == w.replies {
      NotifierKeepsConsumer(w, a);
      RepliesFrame(w, z);
    } else {
      forall s ensures Backed(w, s) ==> Backed(z, s) { BackedGrows(w, z, s); }
    }
  }

  lemma NotifierKeepsConsumer(w: World, a: NotifierAction)
    requires EnabledNotifier(w, a)
    ensures ApplyNotifier(w, a).consumer == w.consumer
  {}

  lemma NotifierKeepsOwn(w: World, a: NotifierAction)
    requires Atomicity.RowsMatchSagas(w) && Decisions.CommandsOwned(w)
    requires NotifierBacked(w) && DedupBacked(w) && EnabledNotifier(w, a)
    ensures NotifierBacked(ApplyNotifier(w, a))
  {
    var z := ApplyNotifier(w, a);
    NotifierGrows(w, a);
    if !w.notifier.NotifierIdle? {
      assert Decisions.Owned(w, w.notifier.d);
      if IsSagaCommand(w.notifier.d) { BackedGrows(w, z, w.notifier.d.body.sagaId); }
    }
  }

  /** Marking the key of a command whose state after the mark is backed. */
  lemma MarkedDedup(w: World, d: Delivery, z: World)
    requires Atomicity.TokensDistinct(w) && Decisions.Owned(w, d) && w.ids.rowOf.Keys !! w.ids.grpc
    requires DedupKnown(w) && DedupBacked(w) && (IsSagaCommand(d) ==> Backed(z, d.body.sagaId))
    requires z.ids == w.ids && z.dedup == w.dedup + {d.messageId} && Grows(w, z)
    ensures DedupKnown(z) && DedupBacked(z)
  {
    forall s | s in z.ids.tokenOf && Key(z, s) in z.dedup
      ensures Key(z, s) in w.dedup || (IsSagaCommand(d) && s == d.body.sagaId)
    {}
    forall s ensures (Backed(w, s) ==> Backed(z, s)) && (Emailed(w, s) ==> Emailed(z, s)) { BackedGrows(w, z, s); }
  }

  lemma NotifierKeepsDedup(w: World, a: NotifierAction)
    requires Atomicity.TokensDistinct(w) && Atomicity.RowsMatchSagas(w) && Decisions.CommandsOwned(w)
    requires NotifierBacked(w) && DedupKnown(w) && DedupBacked(w) && EnabledNotifier(w, a)
    ensures DedupKnown(ApplyNotifier(w, a)) && DedupBacked(ApplyNotifier(w, a))
  {
    var z := ApplyNotifier(w, a);
    NotifierGrows(w, a);
    if a.MarkProcessed? && a.ok {
      if IsSagaCommand(w.notifier.d) { BackedGrows(w, z, w.notifier.d.body.sagaId); }
      MarkedDedup(w, w.notifier.d, z);
    } else {
      DedupFrame(w, z);
    }
  }

  lemma NotifierKeepsRest(w: World, a: NotifierAction)
    requires CompletedBacked(w) && CallersBacked(w) && EnabledNotifier(w, a)
    ensures CompletedBacked(ApplyNotifier(w, a)) && CallersBacked(ApplyNotifier(w, a))
  {
    var z := ApplyNotifier(w, a);
    NotifierGrows(w, a);
    CompletedFrame(w, z);
    CallersFrame(w, z);
  }

  lemma NotifierStep(w: World, a: NotifierAction)
    requires Atomicity.Inv(w) && Decisions.Inv(w) && Inv(w) && EnabledNotifier(w, a)
    ensures Inv(ApplyNotifier(w, a))
  {
    NotifierKeepsReplies(w, a);
    NotifierKeepsOwn(w, a);
    NotifierKeepsDedup(w, a);
    NotifierKeepsRest(w, a);
    NotifierKeepsUnsent(w, a);
  }

  lemma NotifierKeepsUnsent(w: World, a: NotifierAction)
    requires w.audit.unsent <= w.audit.refused && NotifierBacked(w) && EnabledNotifier(w, a)
    ensures ApplyNotifier(w, a).audit.unsent <= ApplyNotifier(w, a).audit.refused
  {}

  lemma ConsumerKeepsReplies(w: World, a: ConsumerAction)
    requires RepliesBacked(w) && EnabledConsumer(w, a)
    ensures RepliesBacked(ApplyConsumer(w, a))
  {
    var z := ApplyConsumer(w, a);
    forall s ensures Backed(w, s) ==> Backed(z, s) { BackedGrows(w, z, s); }
  }

  /** Completing one saga that has its evidence. */
  lemma CompletedOne(w: World, s: SagaId, z: World)
    requires CompletedBacked(w) && Grows(w, z) && z.ids == w.ids
    requires s in w.ids.rowOf ==> Backed(w, s)
    requires s in w.ids.grpc ==> Emailed(w, s)
    requires forall x | x in z.t.sagas && z.t.sagas[x].state.Completed? ::
               x == s || (x in w.t.sagas && w.t.sagas[x].state.Completed?)
    ensures CompletedBacked(z)
  {
    forall x ensures (Backed(w, x) ==> Backed(z, x)) && (Emailed(w, x) ==> Emailed(z, x)) { BackedGrows(w, z, x); }
  }

  lemma ConsumerKeepsCompleted(w: World, a: ConsumerAction)
    requires w.ids.rowOf.Keys !! w.ids.grpc && Decisions.RepliesOwned(w)
    requires RepliesBacked(w) && CompletedBacked(w) && EnabledConsumer(w, a)
    ensures CompletedBacked(ApplyConsumer(w, a))
  {
    var z := ApplyConsumer(w, a);
    if a.Write? && w.consumer.Deciding? && w.consumer.r.status.Sent? {
      CompletedOne(w, w.consumer.r.sagaId, z);
    } else {
      CompletedFrame(w, z);
    }
  }

  lemma ConsumerKeepsRest(w: World, a: ConsumerAction)
    requires NotifierBacked(w) && DedupKnown(w) && DedupBacked(w) && CallersBacked(w) && EnabledConsumer(w, a)
    ensures NotifierBacked(ApplyConsumer(w, a)) && DedupKnown(ApplyConsumer(w, a))
    ensures DedupBacked(ApplyConsumer(w, a)) && CallersBacked(ApplyConsumer(w, a))
  {
    var z := ApplyConsumer(w, a);
    NotifierFrame(w, z);
    DedupFrame(w, z);
    CallersFrame(w, z);
  }

  lemma ConsumerStep(w: World, a: ConsumerAction)
    requires Atomicity.Inv(w) && Decisions.Inv(w) && Inv(w) && EnabledConsumer(w, a)
    ensures Inv(ApplyConsumer(w, a))
  {
    ConsumerKeepsReplies(w, a);
    ConsumerKeepsCompleted(w, a);
    ConsumerKeepsRest(w, a);
  }

  lemma SweeperStep(w: World, a: SweeperAction)
    requires Inv(w) && EnabledSweeper(w, a)
    ensures Inv(ApplySweeper(w, a))
  {
    Frames.SweeperMoves(w, a);
    SweeperCompletesNone(w, a);
    SweeperFrame(w, ApplySweeper(w, a));
  }

  lemma SweeperCompletesNone(w: World, a: SweeperAction)
    requires EnabledSweeper(w, a)
    ensures var z := ApplySweeper(w, a);
            forall s | s in z.t.sagas && z.t.sagas[s].state.Completed? :: s in w.t.sagas && w.t.sagas[s].state.Completed?
  {}

  lemma SweeperFrame(w: World, z: World)
    requires Inv(w) && Frames.OnlySweeper(w, z)
    requires forall s | s in z.t.sagas && z.t.sagas[s].state.Completed? :: s in w.t.sagas && w.t.sagas[s].state.Completed?
    ensures Inv(z)
  {
    RepliesFrame(w, z);
    NotifierFrame(w, z);
    DedupFrame(w, z);
    CompletedFrame(w, z);
    CallersFrame(w, z);
  }

  lemma SyncGrows(w: World, a: SyncAction)
    requires EnabledSync(w, a)
    ensures Grows(w, ApplySync(w, a))
  {}

  lemma SyncKeepsCallers(w: World, a: SyncAction)
    requires Atomicity.RowsMatchSagas(w) && CallersBacked(w) && DedupBacked(w) && EnabledSync(w, a)
    ensures CallersBacked(ApplySync(w, a))
  {
    var z := ApplySync(w, a);
    SyncGrows(w, a);
    forall s ensures Emailed(w, s) ==> Emailed(z, s) { BackedGrows(w, z, s); }
    SyncKeepsServers(w, a, z);
    SyncKeepsCallersOnly(w, a, z);
  }

  lemma SyncKeepsServers(w: World, a: SyncAction, z: World)
    requires Atomicity.RowsMatchSagas(w) && CallersBacked(w) && DedupBacked(w) && EnabledSync(w, a) && z == ApplySync(w, a)
    requires forall s :: Emailed(w, s) ==> Emailed(z, s)
    ensures forall s | s in z.server && (z.server[s].ServerMarking? || z.server[s].ServerDone?) :: Emailed(z, s)
  {
    OtherServersStand(w, a);
    if a.saga in z.server { OwnServer(w, a); }
  }

  lemma OtherServersStand(w: World, a: SyncAction)
    requires EnabledSync(w, a)
    ensures forall s | s in ApplySync(w, a).server && s != a.saga :: s in w.server && ApplySync(w, a).server[s] == w.server[s]
    ensures a.saga in ApplySync(w, a).server ==> a.saga in w.server
  {}

  /** The acting server has its evidence: an accepted mail, a marked key, or what
      it had before. */
  lemma OwnServer(w: World, a: SyncAction)
    requires Atomicity.Split(w) && CallersBacked(w) && DedupBacked(w) && EnabledSync(w, a) && a.saga in ApplySync(w, a).server
    ensures var z := ApplySync(w, a);
            z.server[a.saga].ServerMarking? || z.server[a.saga].ServerDone? ==> Emailed(z, a.saga)
  {}

  lemma SyncKeepsCallersOnly(w: World, a: SyncAction, z: World)
    requires CallersBacked(w) && EnabledSync(w, a) && z == ApplySync(w, a)
    requires forall s :: Emailed(w, s) ==> Emailed(z, s)
    ensures forall s | s in z.sync && z.sync[s].Completing? :: Emailed(z, s)
  {}

  lemma ServerMarksOwn(w: World, s: SagaId, z: World)
    requires Atomicity.TokensDistinct(w) && Atomicity.RowsMatchSagas(w)
    requires CallersBacked(w) && DedupKnown(w) && DedupBacked(w) && Grows(w, z)
    requires s in w.server && w.server[s].ServerMarking? && s in w.ids.tokenOf
    requires z.ids == w.ids && z.dedup == w.dedup + {Key(w, s)}
    ensures DedupKnown(z) && DedupBacked(z)
  {
    forall x | x in z.ids.tokenOf && Key(z, x) in z.dedup ensures Key(z, x) in w.dedup || x == s {}
    forall x ensures (Backed(w, x) ==> Backed(z, x)) && (Emailed(w, x) ==> Emailed(z, x)) { BackedGrows(w, z, x); }
  }

  lemma SyncKeepsDedup(w: World, a: SyncAction)
    requires Atomicity.TokensDistinct(w) && Atomicity.RowsMatchSagas(w)
    requires CallersBacked(w) && DedupKnown(w) && DedupBacked(w) && EnabledSync(w, a)
    ensures DedupKnown(ApplySync(w, a)) && DedupBacked(ApplySync(w, a))
  {
    var z := ApplySync(w, a);
    SyncGrows(w, a);
    if a.ServerMark? && a.ok {
      ServerMarksOwn(w, a.saga, z);
    } else {
      DedupFrame(w, z);
    }
  }

  lemma SyncKeepsCompleted(w: World, a: SyncAction)
    requires w.ids.rowOf.Keys !! w.ids.grpc && w.sync.Keys <= w.ids.grpc
    requires CallersBacked(w) && CompletedBacked(w) && EnabledSync(w, a)
    ensures CompletedBacked(ApplySync(w, a))
  {
    var z := ApplySync(w, a);
    SyncGrows(w, a);
    if a.SyncWrite? && w.sync[a.saga].Completing? {
      CompletedOne(w, a.saga, z);
    } else {
      CompletedFrame(w, z);
    }
  }

  lemma SyncKeepsRest(w: World, a: SyncAction)
    requires RepliesBacked(w) && NotifierBacked(w) && EnabledSync(w, a)
    ensures RepliesBacked(ApplySync(w, a)) && NotifierBacked(ApplySync(w, a))
  {
    SyncGrows(w, a);
    RepliesFrame(w, ApplySync(w, a));
    NotifierFrame(w, ApplySync(w, a));
  }

  lemma SyncStep(w: World, a: SyncAction)
    requires Atomicity.Inv(w) && Inv(w) && EnabledSync(w, a)
    ensures Inv(ApplySync(w, a))
  {
    SyncKeepsCallers(w, a);
    SyncKeepsDedup(w, a);
    SyncKeepsCompleted(w, a);
    SyncKeepsRest(w, a);
    SyncKeepsUnsent(w, a);
  }

  lemma SyncKeepsUnsent(w: World, a: SyncAction)
    requires EnabledSync(w, a)
    ensures ApplySync(w, a).audit.unsent == w.audit.unsent && ApplySync(w, a).audit.refused == w.audit.refused
  {}

  lemma OtherStep(w: World, a: OtherAction)
    requires Inv(w) && EnabledOther(w, a)
    ensures Inv(ApplyOther(w, a))
  {
    var z := ApplyOther(w, a);
    assert Grows(w, z);
    if a.LoseReply? {
      forall s ensures Backed(w, s) ==> Backed(z, s) { BackedGrows(w, z, s); }
      assert RepliesBacked(z);
    } else {
      RepliesFrame(w, z);
    }
    NotifierFrame(w, z);
    DedupFrame(w, z);
    CompletedFrame(w, z);
    CallersFrame(w, z);
  }

  lemma StepKeepsInv(w: World, a: Action)
    requires Atomicity.Inv(w) && Decisions.Inv(w) && Inv(w) && Enabled(w, a)
    ensures Inv(Apply(w, a))
  {
    match a
    case User(x) => UserStep(w, x);
    case Relay(x) => RelayStep(w, x);
    case Notifier(x) => NotifierStep(w, x);
    case Consumer(x) => ConsumerStep(w, x);
    case Sweeper(x) => SweeperStep(w, x);
    case Sync(x) => SyncStep(w, x);
    case Other(x) => OtherStep(w, x);
  }

  lemma {:induction false} RunKeepsInv(w: World, actions: seq<Action>, end: World)
    requires Atomicity.Inv(w) && Decisions.Inv(w) && Inv(w) && Run(w, actions, end)
    ensures Atomicity.Inv(end) && Decisions.Inv(end) && Inv(end)
    decreases |actions|
  {
    if actions != [] {
      Atomicity.StepKeepsInv(w, actions[0]);
      Decisions.StepKeepsInv(w, actions[0]);
      StepKeepsInv(w, actions[0]);
      RunKeepsInv(Apply(w, actions[0]), actions[1..], end);
    }
  }

  /** In every execution, a completed saga was emailed, or, over the broker only,
      a "failed" reply for it was published and its unsent command then marked. */
  lemma CompletedHasEvidence(actions: seq<Action>, w: World, s: SagaId)
    requires Run(Init(), actions, w)
    requires s in w.t.sagas && w.t.sagas[s].state.Completed?
    ensures s in w.ids.grpc ==> Emailed(w, s)
    ensures s in w.ids.rowOf ==> Emailed(w, s) || (s in w.audit.refused && s in w.audit.unsent)
    ensures s in w.ids.grpc || s in w.ids.rowOf
  {
    RunKeepsInv(Init(), actions, w);
  }

  // --------------------------------------------------------------- a false "sent"

  /** The next delivery of the command of `s` would report it as sent, and no
      email for it was ever accepted. */
  ghost predicate Poisoned(w: World, s: SagaId) {
    s in w.ids.tokenOf && Key(w, s) in w.dedup && !Emailed(w, s)
  }

  /** The notifier is about to mark the command of `s`, which it failed to send. */
  ghost predicate MarksUnsent(w: World, a: Action, s: SagaId) {
    && a == Notifier(MarkProcessed(true)) && w.notifier.Marking? && !w.notifier.sent
    && IsSagaCommand(w.notifier.d) && w.notifier.d.body.sagaId == s
  }

  lemma NotifierPoisons(w: World, a: NotifierAction, s: SagaId)
    requires Atomicity.TokensDistinct(w) && Decisions.CommandsOwned(w) && NotifierBacked(w)
    requires EnabledNotifier(w, a) && s in w.ids.tokenOf && !Poisoned(w, s)
    ensures Poisoned(ApplyNotifier(w, a), s) <==> MarksUnsent(w, Notifier(a), s) && !Emailed(w, s)
  {
    if !w.notifier.NotifierIdle? { assert Decisions.Owned(w, w.notifier.d); }
  }

  lemma SyncPoisonsNone(w: World, a: SyncAction, s: SagaId)
    requires Atomicity.TokensDistinct(w) && CallersBacked(w)
    requires EnabledSync(w, a) && s in w.ids.tokenOf && !Poisoned(w, s)
    ensures !Poisoned(ApplySync(w, a), s)
  {
    SyncGrows(w, a);
    BackedGrows(w, ApplySync(w, a), s);
    if a.ServerMark? && a.saga != s { assert Key(w, a.saga) != Key(w, s); }
  }

  lemma OthersPoisonNone(w: World, a: Action, s: SagaId)
    requires Enabled(w, a) && !a.Notifier? && !a.Sync? && s in w.ids.tokenOf && !Poisoned(w, s)
    ensures !Poisoned(Apply(w, a), s)
  {
    var z := Apply(w, a);
    assert z.mail.sends == w.mail.sends && z.dedup <= w.dedup;
    assert s in z.ids.tokenOf && z.ids.tokenOf[s] == w.ids.tokenOf[s];
  }

  /** The exact branch behind every false "sent": over all executions, a step
      makes the next report about an attempt false if and only if it is the
      notifier's mark of a command it failed to send and never sent before. */
  lemma PoisonedExactly(past: seq<Action>, w: World, a: Action, s: SagaId)
    requires Run(Init(), past, w) && Enabled(w, a) && s in w.t.sagas && !Poisoned(w, s)
    ensures Poisoned(Apply(w, a), s) <==> MarksUnsent(w, a, s) && !Emailed(w, s)
  {
    RunKeepsInv(Init(), past, w);
    StepPoisons(w, a, s);
  }

  lemma StepPoisons(w: World, a: Action, s: SagaId)
    requires Atomicity.TokensDistinct(w) && Decisions.CommandsOwned(w) && NotifierBacked(w) && CallersBacked(w)
    requires Enabled(w, a) && s in w.ids.tokenOf && !Poisoned(w, s)
    ensures Poisoned(Apply(w, a), s) <==> MarksUnsent(w, a, s) && !Emailed(w, s)
  {
    match a
    case Notifier(x) => NotifierPoisons(w, x, s);
    case Sync(x) => SyncPoisonsNone(w, x, s);
    case _ => OthersPoisonNone(w, a, s);
  }

  /** ... and every "sent" that is re-reported, queued or in the consumer's hand
      for a saga without an email goes back to such a mark. */
  lemma FalseSentWasMarked(actions: seq<Action>, w: World, s: SagaId)
    requires Run(Init(), actions, w) && s in w.ids.rowOf && !Emailed(w, s) && SaysSent(w, s)
    ensures s in w.audit.unsent && s in w.audit.refused
  {
    RunKeepsInv(Init(), actions, w);
    SaysSentIsBacked(w, s);
  }

  ghost predicate SaysSent(w: World, s: SagaId) {
    || (w.notifier.Reporting? && IsSagaCommand(w.notifier.d) && w.notifier.d.body.sagaId == s)
    || Reply(s, Sent) in w.replies
    || (!w.consumer.ReplyIdle? && w.consumer.r == Reply(s, Sent))
    || (s in w.ids.tokenOf && Key(w, s) in w.dedup)
  }

  lemma SaysSentIsBacked(w: World, s: SagaId)
    requires Inv(w) && s in w.ids.rowOf && SaysSent(w, s)
    ensures Backed(w, s) && w.audit.unsent <= w.audit.refused
  {
    if i :| 0 <= i < |w.replies| && w.replies[i] == Reply(s, Sent) { assert Backed(w, w.replies[i].sagaId); }
  }
}
