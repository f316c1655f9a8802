/** Conservation laws of the subscriptions table under concurrent re-subscribes. */
module Conservation {
  import opened Model
  import opened Protocol
  import Frames
  import Atomicity

  ghost predicate Balanced(w: World, i: SubId) {
    && i in w.t.subs && i in w.ids.attempts
    && |w.ids.attempts[i]| == 1 + w.audit.reactivations[i]
    && w.audit.failures[i] ==
       w.audit.reactivations[i] + w.audit.revivals[i] + (if w.t.subs[i].status == MarkedFailed then 1 else 0)
  }

  ghost predicate Inv(w: World) {
    && (forall i | i in w.t.subs :: Balanced(w, i))
    && (forall i: SubId | w.ids.nextSub <= i ::
          w.audit.reactivations[i] == 0 && w.audit.failures[i] == 0 && w.audit.revivals[i] == 0)
    && (forall i | i in w.t.subs :: i < w.ids.nextSub)
  }

  lemma Frame(w: World, z: World)
    requires Inv(w) && z.ids == w.ids && z.audit.reactivations == w.audit.reactivations
    requires z.audit.failures == w.audit.failures && z.audit.revivals == w.audit.revivals
    requires forall i | i in z.t.subs :: i in w.t.subs && z.t.subs[i].status == w.t.subs[i].status
    ensures Inv(z)
  {
    forall i | i in z.t.subs ensures Balanced(z, i) { assert Balanced(w, i); }
  }

  lemma FailSubscriptionKeeps(w: World, s: SagaId, sub: SubId, z: World)
    requires Inv(w) && sub in w.t.subs
    requires z.t.subs == FailSubscription(w, s, sub).t.subs && z.ids == w.ids
    requires z.audit == FailSubscription(w, s, sub).audit
    ensures Inv(z)
  {
    forall i | i in z.t.subs ensures Balanced(z, i) { assert Balanced(w, i); }
  }

  lemma SubscribeStep(w: World, a: Attempt, reactivate: bool, broker: bool)
    requires Inv(w) && EnabledUser(w, Subscribe(a, reactivate, broker))
    ensures Inv(ApplyUser(w, Subscribe(a, reactivate, broker)))
  {
    var z := ApplyUser(w, Subscribe(a, reactivate, broker));
    Atomicity.SubscribeEffect(w, a, reactivate, broker);
    assert reactivate ==> w.t.subs[a.sub].status == MarkedFailed;
    forall i | i in z.t.subs ensures Balanced(z, i) { if i in w.t.subs { assert Balanced(w, i); } }
  }

  lemma ConfirmStep(w: World, token: Token)
    requires Inv(w)
    ensures Inv(ApplyUser(w, Confirm(token)))
  {
    var z := ApplyUser(w, Confirm(token));
    forall i | i in z.t.subs ensures Balanced(z, i) { assert Balanced(w, i); }
  }

  lemma QuietStep(w: World, a: Action)
    requires Inv(w) && Enabled(w, a) && (a.Relay? || a.Notifier? || a.Other?)
    ensures Inv(Apply(w, a))
  {
    match a
    case Relay(x) => Frames.RelayMoves(w, x); Frame(w, ApplyRelay(w, x));
    case Notifier(x) => Frames.NotifierMoves(w, x); Frame(w, ApplyNotifier(w, x));
    case Other(x) => Frames.OtherMoves(w, x); Frame(w, ApplyOther(w, x));
  }

  lemma ConsumerStep(w: World, a: ConsumerAction)
    requires Inv(w) && EnabledConsumer(w, a)
    ensures Inv(ApplyConsumer(w, a))
  {
    var z := ApplyConsumer(w, a);
    if a.Write? && w.consumer.FailingSubscription? {
      FailSubscriptionKeeps(w, w.consumer.r.sagaId, w.consumer.sub, z);
    } else {
      Frame(w, z);
    }
  }

  lemma SweeperStep(w: World, a: SweeperAction)
    requires Inv(w) && EnabledSweeper(w, a)
    ensures Inv(ApplySweeper(w, a))
  {
    var z := ApplySweeper(w, a);
    if a.SweepHead? && a.ok && w.sweeper.snapshot[w.sweeper.todo[0]].state.Compensating? {
      FailSubscriptionKeeps(w, w.sweeper.todo[0], w.sweeper.snapshot[w.sweeper.todo[0]].sub, z);
    } else {
      Frame(w, z);
    }
  }

  lemma SyncStep(w: World, a: SyncAction)
    requires Inv(w) && EnabledSync(w, a)
    ensures Inv(ApplySync(w, a))
  {
    var z := ApplySync(w, a);
    if a.SyncWrite? && w.sync[a.saga].SyncFailingSubscription? {
      FailSubscriptionKeeps(w, a.saga, w.t.sagas[a.saga].sub, z);
    } else {
      Frame(w, z);
    }
  }

  lemma StepKeepsInv(w: World, a: Action)
    requires Inv(w) && Enabled(w, a)
    ensures Inv(Apply(w, a))
  {
    match a
    case User(x) =>
      if x.Subscribe? { SubscribeStep(w, x.a, x.reactivate, x.broker); }
      else if x.Confirm? { ConfirmStep(w, x.token); }
      else { Frame(w, Apply(w, a)); }
    case Consumer(x) => ConsumerStep(w, x);
    case Sweeper(x) => SweeperStep(w, x);
    case Sync(x) => SyncStep(w, x);
    case _ => QuietStep(w, a);
  }

  lemma {:induction false} RunKeepsInv(w: World, actions: seq<Action>, end: World)
    requires Atomicity.Inv(w) && Inv(w) && Run(w, actions, end)
    ensures Atomicity.Inv(end) && Inv(end)
    decreases |actions|
  {
    if actions != [] {
      Atomicity.StepKeepsInv(w, actions[0]);
      StepKeepsInv(w, actions[0]);
      RunKeepsInv(Apply(w, actions[0]), actions[1..], end);
    }
  }

  function SagasOf(t: Tables, i: SubId): set<SagaId> {
    set s | s in t.sagas && t.sagas[s].sub == i
  }

  /** In every execution, every live subscription has one saga more than it was
      reactivated; it entered `failed` once per reactivation, once per
      confirmation made while failed, and once more if it is failed now; and no
      other row shares its (email, repo). */
  lemma SubscriptionsBalance(actions: seq<Action>, w: World, i: SubId)
    requires Run(Init(), actions, w) && i in w.t.subs
    ensures |SagasOf(w.t, i)| == 1 + w.audit.reactivations[i]
    ensures w.audit.failures[i] == w.audit.reactivations[i] + w.audit.revivals[i] +
                                   (if w.t.subs[i].status == MarkedFailed then 1 else 0)
    ensures forall j | j in w.t.subs && w.t.subs[j].email == w.t.subs[i].email && w.t.subs[j].repo == w.t.subs[i].repo ::
              j == i
  {
    RunKeepsInv(Init(), actions, w);
    assert Balanced(w, i);
    assert Atomicity.AreAttemptsOf(w, i, w.ids.attempts[i]);
    DistinctSize(w.ids.attempts[i], SagasOf(w.t, i));
  }
}
