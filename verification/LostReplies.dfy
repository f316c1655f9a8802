/** What stands between "completed" and "emailed": besides the mark of an unsent
    command (see Evidence), a "failed" reply lost or dropped on its way. */
module LostReplies {
  import opened Model
  import opened Protocol
  import Atomicity
  import Decisions
  import Evidence

  /** Replies not yet acknowledged, in the order the consumer sees them. */
  ghost function Waiting(w: World): seq<Reply> {
    (if w.consumer.ReplyIdle? then [] else [w.consumer.r]) + w.replies
  }

  /** The first reply that decides `s` says "failed". */
  ghost predicate FirstRefuses(q: seq<Reply>, s: SagaId)
    decreases |q|
  {
    q != [] &&
    if q[0].sagaId == s && !q[0].status.UnknownStatus? then q[0].status.NotSent?
    else FirstRefuses(q[1..], s)
  }

  ghost predicate NoneSent(q: seq<Reply>, s: SagaId) {
    forall i | 0 <= i < |q| && q[i].sagaId == s :: !q[i].status.Sent?
  }

  /** Nothing that would let the notifier report "sent" has happened yet. */
  ghost predicate Unmarked(w: World, s: SagaId) {
    && s in w.ids.tokenOf && Key(w, s) !in w.dedup
    && (w.notifier.Reporting? || w.notifier.Marking? ==>
          IsSagaCommand(w.notifier.d) ==> w.notifier.d.body.sagaId != s)
  }

  ghost predicate Undecided(w: World, s: SagaId) {
    && s in w.t.sagas && w.t.sagas[s].state.SubscriptionCreated?
    && (FirstRefuses(Waiting(w), s) || (NoneSent(Waiting(w), s) && Unmarked(w, s)))
  }

  ghost predicate Accounted(w: World, s: SagaId) {
    || s in w.audit.lost
    || Evidence.Emailed(w, s)
    || (s in w.t.sagas && Compensated(w.t.sagas[s].state))
    || Undecided(w, s)
  }

  ghost predicate Inv(w: World) {
    forall s | s in w.ids.rowOf :: Accounted(w, s)
  }

  // ------------------------------------------------------------- queues of replies

  lemma {:induction false} AppendKeepsFirst(q: seq<Reply>, r: Reply, s: SagaId)
    requires FirstRefuses(q, s)
    ensures FirstRefuses(q + [r], s)
    decreases |q|
  {
    assert (q + [r])[1..] == q[1..] + [r];
    if !(q[0].sagaId == s && !q[0].status.UnknownStatus?) { AppendKeepsFirst(q[1..], r, s); }
  }

  lemma {:induction false} RefusalComesFirst(q: seq<Reply>, s: SagaId)
    requires NoneSent(q, s)
    ensures FirstRefuses(q + [Reply(s, NotSent)], s)
    decreases |q|
  {
    if q != [] {
      assert (q + [Reply(s, NotSent)])[1..] == q[1..] + [Reply(s, NotSent)];
      RefusalComesFirst(q[1..], s);
    }
  }

  lemma {:induction false} RemoveKeepsFirst(q: seq<Reply>, i: nat, s: SagaId)
    requires i < |q| && FirstRefuses(q, s)
    requires q[i] != Reply(s, NotSent)
    ensures FirstRefuses(RemoveAt(q, i), s)
    decreases |q|
  {
    if i == 0 {
      assert RemoveAt(q, 0) == q[1..];
    } else {
      assert RemoveAt(q, i)[0] == q[0];
      assert RemoveAt(q, i)[1..] == RemoveAt(q[1..], i - 1);
      if !(q[0].sagaId == s && !q[0].status.UnknownStatus?) { RemoveKeepsFirst(q[1..], i - 1, s); }
    }
  }

  // ------------------------------------------------------------------------ steps

  /** Nothing about `s` moved, except that evidence may have been added. */
  lemma AccountedFrame(w: World, z: World, s: SagaId)
    requires Accounted(w, s) && Evidence.Grows(w, z) && w.audit.lost <= z.audit.lost
    requires s in w.t.sagas ==> s in z.t.sagas && Decisions.Follows(w.t.sagas[s].state, z.t.sagas[s].state)
    requires s in w.t.sagas && w.t.sagas[s].state.SubscriptionCreated? ==> z.t.sagas[s].state.SubscriptionCreated?
    requires Waiting(z) == Waiting(w)
    requires Unmarked(w, s) ==> Unmarked(z, s)
    ensures Accounted(z, s)
  {
    Evidence.BackedGrows(w, z, s);
  }

  lemma NewSagaAccounted(w: World, a: Attempt, reactivate: bool, z: World)
    requires Atomicity.TokensDistinct(w) && Atomicity.RowsMatchSagas(w)
    requires Decisions.Provenance(w) && Evidence.DedupKnown(w)
    requires FreshAttempt(w, a, reactivate) && Atomicity.Subscribed(w, a, reactivate, true, z)
    requires z.consumer == w.consumer && z.replies == w.replies && z.notifier == w.notifier && z.dedup == w.dedup
    ensures Accounted(z, a.saga)
  {
    if w.notifier.Reporting? || w.notifier.Marking? { assert Decisions.Owned(w, w.notifier.d); }
    assert a.saga !in w.ids.rowOf;
    assert NoneSent(Waiting(z), a.saga);
    assert Unmarked(z, a.saga);
  }

  lemma UserKeepsOld(w: World, a: UserAction, s: SagaId)
    requires Accounted(w, s) && s in w.t.sagas && EnabledUser(w, a)
    requires Decisions.Moves(w, ApplyUser(w, a), {})
    ensures Accounted(ApplyUser(w, a), s)
  {
    AccountedFrame(w, ApplyUser(w, a), s);
  }

  lemma UserStep(w: World, a: UserAction)
    requires Atomicity.Inv(w) && Decisions.Inv(w) && Evidence.Inv(w) && Inv(w) && EnabledUser(w, a)
    ensures Inv(ApplyUser(w, a))
  {
    var z := ApplyUser(w, a);
    Decisions.UserStep(w, a);
    if a.Subscribe? { Atomicity.SubscribeEffect(w, a.a, a.reactivate, a.broker); }
    forall s | s in z.ids.rowOf ensures Accounted(z, s) {
      if s in w.ids.rowOf { UserKeepsOld(w, a, s); } else { NewSagaAccounted(w, a.a, a.reactivate, z); }
    }
  }

  lemma RelayStep(w: World, a: RelayAction)
    requires Inv(w) && EnabledRelay(w, a)
    ensures Inv(ApplyRelay(w, a))
  {
    forall s | s in w.ids.rowOf ensures Accounted(ApplyRelay(w, a), s) { AccountedFrame(w, ApplyRelay(w, a), s); }
  }

  lemma NotifierAppends(w: World, a: NotifierAction, s: SagaId)
    requires Decisions.CommandsOwned(w) && Evidence.NotifierBacked(w)
    requires s in w.ids.rowOf && Undecided(w, s) && !Evidence.Emailed(w, s)
    requires EnabledNotifier(w, a) && (a.ReportAgain? || a.PublishReply?)
    ensures Undecided(ApplyNotifier(w, a), s)
  {
    var z := ApplyNotifier(w, a);
    var q := Waiting(w);
    if z.replies == w.replies {
      assert Waiting(z) == q;
    } else {
      var r := z.replies[|w.replies|];
      assert Waiting(z) == q + [r];
      if FirstRefuses(q, s) {
        AppendKeepsFirst(q, r, s);
      } else if r == Reply(s, NotSent) {
        RefusalComesFirst(q, s);
      } else {
        assert r.sagaId != s;
      }
    }
  }

  lemma NotifierMarks(w: World, a: NotifierAction, s: SagaId)
    requires Atomicity.TokensDistinct(w) && Decisions.CommandsOwned(w)
    requires s in w.ids.rowOf && Undecided(w, s)
    requires EnabledNotifier(w, a) && !a.ReportAgain? && !a.PublishReply? && !a.Send?
    ensures Undecided(ApplyNotifier(w, a), s)
  {
    var z := ApplyNotifier(w, a);
    assert Waiting(z) == Waiting(w) && z.t == w.t;
    if Unmarked(w, s) && !FirstRefuses(Waiting(w), s) { NotifierKeepsUnmarked(w, a, s); }
  }

  lemma NotifierKeepsUnmarked(w: World, a: NotifierAction, s: SagaId)
    requires Atomicity.TokensDistinct(w) && Decisions.CommandsOwned(w)
    requires s in w.ids.rowOf && Unmarked(w, s)
    requires EnabledNotifier(w, a) && !a.ReportAgain? && !a.PublishReply? && !a.Send?
    ensures Unmarked(ApplyNotifier(w, a), s)
  {
    if !w.notifier.NotifierIdle? { assert Decisions.Owned(w, w.notifier.d); }
  }

  lemma NotifierSends(w: World, a: NotifierAction, s: SagaId)
    requires Decisions.CommandsOwned(w) && s in w.ids.rowOf && Undecided(w, s)
    requires EnabledNotifier(w, a) && a.Send?
    ensures Undecided(ApplyNotifier(w, a), s)
  {
    assert Waiting(ApplyNotifier(w, a)) == Waiting(w);
  }

  lemma NotifierKeeps(w: World, a: NotifierAction, s: SagaId)
    requires Atomicity.TokensDistinct(w) && Decisions.CommandsOwned(w) && Evidence.NotifierBacked(w)
    requires s in w.ids.rowOf && Undecided(w, s) && !Evidence.Emailed(w, s) && EnabledNotifier(w, a)
    ensures Undecided(ApplyNotifier(w, a), s)
  {
    if a.ReportAgain? || a.PublishReply? { NotifierAppends(w, a, s); }
    else if a.Send? { NotifierSends(w, a, s); }
    else { NotifierMarks(w, a, s); }
  }

  lemma NotifierFacts(w: World, a: NotifierAction)
    requires EnabledNotifier(w, a)
    ensures ApplyNotifier(w, a).t == w.t && ApplyNotifier(w, a).ids == w.ids
    ensures ApplyNotifier(w, a).audit.lost == w.audit.lost
  {}

  lemma NotifierStep(w: World, a: NotifierAction)
    requires Atomicity.Inv(w) && Decisions.Inv(w) && Evidence.Inv(w) && Inv(w) && EnabledNotifier(w, a)
    ensures Inv(ApplyNotifier(w, a))
  {
    Evidence.NotifierGrows(w, a);
    NotifierFacts(w, a);
    var z := ApplyNotifier(w, a);
    forall s | s in z.ids.rowOf ensures Accounted(z, s) {
      assert Accounted(w, s);
      Evidence.BackedGrows(w, z, s);
      if Undecided(w, s) && !Evidence.Emailed(w, s) { NotifierKeeps(w, a, s); }
    }
  }

  /** The head of the waiting replies leaves the queue undropped only when its
      saga is decided. */
  lemma HeadLeaves(w: World, a: ConsumerAction, s: SagaId)
    requires Decisions.ConsumerKnows(w) && Undecided(w, s) && EnabledConsumer(w, a) && (a.DropReply? || a.AckReply?)
    requires w.consumer.r != Reply(s, NotSent)
    ensures Undecided(ApplyConsumer(w, a), s)
  {
    var z := ApplyConsumer(w, a);
    assert Waiting(w)[1..] == Waiting(z);
    assert RemoveAt(Waiting(w), 0) == Waiting(z);
    if FirstRefuses(Waiting(w), s) { RemoveKeepsFirst(Waiting(w), 0, s); }
  }

  lemma ConsumerWrites(w: World, s: SagaId)
    requires Decisions.ConsumerKnows(w) && Accounted(w, s) && EnabledConsumer(w, Write)
    ensures Accounted(ApplyConsumer(w, Write), s)
  {
    assert Waiting(w)[0] == w.consumer.r;
    assert Waiting(ApplyConsumer(w, Write)) == Waiting(w);
    if s in w.t.sagas { WriteDecides(w, s); }
  }

  /** A write leaves every other saga, and decides its own the way the reply says. */
  lemma WriteDecides(w: World, s: SagaId)
    requires Decisions.ConsumerKnows(w) && EnabledConsumer(w, Write) && s in w.t.sagas
    ensures var z := ApplyConsumer(w, Write);
            && s in z.t.sagas
            && (s != w.consumer.r.sagaId ==> z.t.sagas[s] == w.t.sagas[s])
            && (Compensated(w.t.sagas[s].state) ==> Compensated(z.t.sagas[s].state))
            && (s == w.consumer.r.sagaId ==>
                  Compensated(z.t.sagas[s].state) || (w.consumer.r.status.Sent? && z.t.sagas[s].state.Completed?))
  {}

  lemma ConsumerStep(w: World, a: ConsumerAction)
    requires Decisions.Inv(w) && Inv(w) && EnabledConsumer(w, a)
    ensures Inv(ApplyConsumer(w, a))
  {
    var z := ApplyConsumer(w, a);
    forall s | s in z.ids.rowOf ensures Accounted(z, s) {
      assert Accounted(w, s);
      if a.Write? {
        ConsumerWrites(w, s);
      } else if a.DropReply? || a.AckReply? {
        if Undecided(w, s) && w.consumer.r != Reply(s, NotSent) { HeadLeaves(w, a, s); }
      } else {
        assert Waiting(z) == Waiting(w);
      }
    }
  }

  lemma SweeperKeeps(w: World, a: SweeperAction, s: SagaId)
    requires s in w.t.sagas && Accounted(w, s) && EnabledSweeper(w, a)
    requires Decisions.Moves(w, ApplySweeper(w, a), {})
    ensures Accounted(ApplySweeper(w, a), s)
  {
    AccountedFrame(w, ApplySweeper(w, a), s);
  }

  lemma SweeperStep(w: World, a: SweeperAction)
    requires Atomicity.Inv(w) && Decisions.Inv(w) && Inv(w) && EnabledSweeper(w, a)
    ensures Inv(ApplySweeper(w, a))
  {
    Decisions.SweeperStep(w, a);
    Atomicity.SweeperKeepsShape(w, a);
    forall s | s in w.ids.rowOf ensures Accounted(ApplySweeper(w, a), s) { SweeperKeeps(w, a, s); }
  }

  lemma SyncFacts(w: World, a: SyncAction)
    requires EnabledSync(w, a)
    ensures Waiting(ApplySync(w, a)) == Waiting(w) && ApplySync(w, a).audit.lost == w.audit.lost
    ensures ApplySync(w, a).notifier == w.notifier && ApplySync(w, a).ids == w.ids
    ensures forall k | k in ApplySync(w, a).dedup && k !in w.dedup :: a.ServerMark? && k == Key(w, a.saga)
  {}

  lemma SyncKeeps(w: World, a: SyncAction, z: World, s: SagaId)
    requires Atomicity.TokensDistinct(w) && s in w.ids.rowOf && s in w.t.sagas && a.saga !in w.ids.rowOf
    requires Accounted(w, s) && Evidence.Grows(w, z) && Decisions.Moves(w, z, if a.SyncWrite? then {a.saga} else {})
    requires Waiting(z) == Waiting(w) && z.audit.lost == w.audit.lost && z.notifier == w.notifier && z.ids == w.ids
    requires forall k | k in z.dedup && k !in w.dedup :: a.saga in w.ids.tokenOf && k == Key(w, a.saga)
    ensures Accounted(z, s)
  {
    AccountedFrame(w, z, s);
  }

  lemma SyncStep(w: World, a: SyncAction)
    requires Atomicity.Inv(w) && Decisions.Inv(w) && Inv(w) && EnabledSync(w, a)
    ensures Inv(ApplySync(w, a))
  {
    Decisions.SyncStep(w, a);
    Evidence.SyncGrows(w, a);
    SyncFacts(w, a);
    forall s | s in w.ids.rowOf ensures Accounted(ApplySync(w, a), s) {
      SyncKeeps(w, a, ApplySync(w, a), s);
    }
  }

  lemma LoseStep(w: World, i: nat, s: SagaId)
    requires i < |w.replies| && Undecided(w, s) && w.replies[i] != Reply(s, NotSent)
    ensures Undecided(ApplyOther(w, LoseReply(i)), s)
  {
    var z := ApplyOther(w, LoseReply(i));
    var q := Waiting(w);
    var k := |q| - |w.replies| + i;
    assert q[k] == w.replies[i] && Waiting(z) == RemoveAt(q, k);
    if FirstRefuses(q, s) { RemoveKeepsFirst(q, k, s); }
  }

  lemma OtherStep(w: World, a: OtherAction)
    requires Inv(w) && EnabledOther(w, a)
    ensures Inv(ApplyOther(w, a))
  {
    var z := ApplyOther(w, a);
    forall s | s in z.ids.rowOf ensures Accounted(z, s) {
      assert Accounted(w, s);
      if a.LoseReply? {
        if Undecided(w, s) && w.replies[a.i] != Reply(s, NotSent) { LoseStep(w, a.i, s); }
      } else {
        AccountedFrame(w, z, s);
      }
    }
  }

  lemma StepKeepsInv(w: World, a: Action)
    requires Atomicity.Inv(w) && Decisions.Inv(w) && Evidence.Inv(w) && Inv(w) && Enabled(w, a)
    ensures Inv(Apply(w, a))
  {
    match a
    case User(x) => UserStep(w, x);
    case Relay(x) => RelayStep(w, x);
    case Notifier(x) => NotifierStep(w, x);
    case Consumer(x) => ConsumerStep(w, x);
    case Sweeper(x) => SweeperStep(w, x);
    case Sync(x) => SyncStep(w, x);
    case Other(x) => OtherStep(w, x);
  }

  lemma {:induction false} RunKeepsInv(w: World, actions: seq<Action>, end: World)
    requires Atomicity.Inv(w) && Decisions.Inv(w) && Evidence.Inv(w) && Inv(w) && Run(w, actions, end)
    ensures Inv(end)
    decreases |actions|
  {
    if actions != [] {
      Atomicity.StepKeepsInv(w, actions[0]);
      Decisions.StepKeepsInv(w, actions[0]);
      Evidence.StepKeepsInv(w, actions[0]);
      StepKeepsInv(w, actions[0]);
      RunKeepsInv(Apply(w, actions[0]), actions[1..], end);
    }
  }

  /** In every execution, a completed broker saga was emailed, or else a "failed"
      reply for it was published, its unsent command was marked as processed, and
      that reply was lost in the queue or dropped by the consumer. */
  lemma CompletedWasEmailed(actions: seq<Action>, w: World, s: SagaId)
    requires Run(Init(), actions, w)
    requires s in w.ids.rowOf && s in w.t.sagas && w.t.sagas[s].state.Completed?
    ensures Evidence.Emailed(w, s) || (s in w.audit.refused && s in w.audit.unsent && s in w.audit.lost)
  {
    Evidence.CompletedHasEvidence(actions, w, s);
    RunKeepsInv(Init(), actions, w);
    assert Accounted(w, s);
  }
}
