/** Where the natural claims stop being true: for each the exact condition, and a
    run of the machine that meets it. */
module Limits {
  import opened Model
  import opened Protocol
  import Atomicity
  import Decisions
  import Frames

  // ------------------------------------------------------- who writes saga states

  /** The state that the reply consumer's next write gives to `s`, if any. */
  ghost function ConsumerWrites(w: World, s: SagaId): Option<SagaState> {
    match w.consumer
    case Deciding(r, _) => if r.sagaId == s then Some(if r.status.Sent? then Completed else Compensating) else None
    case FailingSaga(r) => if r.sagaId == s then Some(Failed) else None
    case _ => None
  }

  ghost function CallerWrites(w: World, s: SagaId): Option<SagaState> {
    if s !in w.sync then None else
    match w.sync[s]
    case Completing => Some(Completed)
    case SyncCompensating => Some(Compensating)
    case SyncFailingSaga => Some(Failed)
    case _ => None
  }

  /** The state that step `a` writes to saga `s`, if it writes one. */
  ghost function Written(w: World, a: Action, s: SagaId): Option<SagaState> {
    match a
    case Consumer(x) => if x.Write? then ConsumerWrites(w, s) else None
    case Sweeper(x) => if x == SweepFail(true) && w.sweeper.SweepFailing? && w.sweeper.saga == s then Some(Failed) else None
    case Sync(x) => if x == SyncWrite(s) then CallerWrites(w, s) else None
    case _ => None
  }

  function Or(written: Option<SagaState>, kept: SagaState): SagaState {
    if written.Some? then written.value else kept
  }

  lemma ConsumerWritten(w: World, s: SagaId)
    requires EnabledConsumer(w, Write) && s in w.t.sagas
    ensures s in ApplyConsumer(w, Write).t.sagas
    ensures ApplyConsumer(w, Write).t.sagas[s].state == Or(ConsumerWrites(w, s), w.t.sagas[s].state)
  {}

  lemma ConsumerWritesNone(w: World, a: ConsumerAction)
    requires EnabledConsumer(w, a) && !a.Write?
    ensures ApplyConsumer(w, a).t == w.t
  {}

  lemma SweeperWritten(w: World, a: SweeperAction, s: SagaId)
    requires EnabledSweeper(w, a) && s in w.t.sagas
    ensures s in ApplySweeper(w, a).t.sagas
    ensures ApplySweeper(w, a).t.sagas[s].state == Or(Written(w, Sweeper(a), s), w.t.sagas[s].state)
  {}

  lemma SyncWritten(w: World, a: SyncAction, s: SagaId)
    requires EnabledSync(w, a) && s in w.t.sagas && a.SyncWrite?
    ensures s in ApplySync(w, a).t.sagas
    ensures ApplySync(w, a).t.sagas[s].state ==
            if a.saga == s then Or(CallerWrites(w, s), w.t.sagas[s].state) else w.t.sagas[s].state
  {
    match w.sync[a.saga]
    case Completing =>
    case SyncCompensating =>
    case SyncFailingSubscription =>
    case SyncFailingSaga =>
  }

  lemma SyncWritesNone(w: World, a: SyncAction)
    requires EnabledSync(w, a) && !a.SyncWrite?
    ensures ApplySync(w, a).t == w.t
  {}

  lemma UserWritesNone(w: World, a: UserAction, s: SagaId)
    requires EnabledUser(w, a) && s in w.t.sagas
    ensures s in ApplyUser(w, a).t.sagas && ApplyUser(w, a).t.sagas[s] == w.t.sagas[s]
  {
    if a.Subscribe? { Atomicity.SubscribeEffect(w, a.a, a.reactivate, a.broker); }
  }

  /** A saga changes state exactly when a step writes it. */
  lemma StatesAreWritten(w: World, a: Action, s: SagaId)
    requires Enabled(w, a) && s in w.t.sagas
    ensures s in Apply(w, a).t.sagas
    ensures Apply(w, a).t.sagas[s].state == Or(Written(w, a, s), w.t.sagas[s].state)
  {
    match a
    case User(x) => UserWritesNone(w, x, s);
    case Consumer(x) => if x.Write? { ConsumerWritten(w, s); } else { ConsumerWritesNone(w, x); }
    case Sweeper(x) => SweeperWritten(w, x, s);
    case Sync(x) => if x.SyncWrite? { SyncWritten(w, x, s); } else { SyncWritesNone(w, x); }
    case _ =>
  }

  // -------------------------------------------------------------- saga.updated_at

  /** Only a saga that is inserted or written in this step has a new stamp, and
      the stamp is now. */
  ghost predicate StampedNow(w: World, z: World) {
    forall s | s in z.t.sagas ::
      || (s in w.t.sagas && z.t.sagas[s].updatedAt == w.t.sagas[s].updatedAt && z.t.sagas[s].state == w.t.sagas[s].state)
      || z.t.sagas[s].updatedAt == w.now
  }

  lemma UserStamps(w: World, a: UserAction)
    requires EnabledUser(w, a)
    ensures StampedNow(w, ApplyUser(w, a))
  {
    if a.Subscribe? { Atomicity.SubscribeEffect(w, a.a, a.reactivate, a.broker); }
  }

  lemma ConsumerStamps(w: World, a: ConsumerAction)
    requires EnabledConsumer(w, a)
    ensures StampedNow(w, ApplyConsumer(w, a))
  {}

  lemma SweeperStamps(w: World, a: SweeperAction)
    requires EnabledSweeper(w, a)
    ensures StampedNow(w, ApplySweeper(w, a))
  {}

  lemma SyncStamps(w: World, a: SyncAction)
    requires EnabledSync(w, a)
    ensures StampedNow(w, ApplySync(w, a))
  {}

  lemma StepStamps(w: World, a: Action)
    requires Enabled(w, a)
    ensures StampedNow(w, Apply(w, a)) && w.now <= Apply(w, a).now
  {
    match a
    case User(x) => UserStamps(w, x);
    case Consumer(x) => ConsumerStamps(w, x);
    case Sweeper(x) => SweeperStamps(w, x);
    case Sync(x) => SyncStamps(w, x);
    case _ => assert Apply(w, a).t.sagas == w.t.sagas;
  }

  ghost predicate NoFutureStamps(w: World) {
    forall s | s in w.t.sagas :: w.t.sagas[s].updatedAt <= w.now
  }

  lemma {:induction false} RunKeepsStamps(w: World, actions: seq<Action>, end: World)
    requires NoFutureStamps(w) && Run(w, actions, end)
    ensures NoFutureStamps(end)
    decreases |actions|
  {
    if actions != [] {
      StepStamps(w, actions[0]);
      RunKeepsStamps(Apply(w, actions[0]), actions[1..], end);
    }
  }

  // -------------------------------------------------- `failed` is not absorbing

  /** A step takes a failed saga out of `failed` exactly when the reply consumer
      writes on the strength of an older read of that saga. */
  lemma FailedIsLeftExactly(w: World, a: Action, s: SagaId)
    requires Decisions.Inv(w) && Enabled(w, a)
    requires s in w.t.sagas && w.t.sagas[s].state.Failed?
    ensures s in Apply(w, a).t.sagas
    ensures !Apply(w, a).t.sagas[s].state.Failed? <==>
            a == Consumer(Write) && w.consumer.Deciding? && w.consumer.r.sagaId == s
  {
    StatesAreWritten(w, a, s);
    if s in w.sync { assert Decisions.CallerKnows(w, s, w.sync[s]); }
  }

  // -------------------------------------------- at most one live saga per subscription

  function LiveSagas(t: Tables, i: SubId): set<SagaId> {
    set s | s in t.sagas && t.sagas[s].sub == i && !Terminal(t.sagas[s].state)
  }

  lemma OneMoreLive(t: Tables, u: Tables, a: Attempt, now: nat)
    requires a.saga !in t.sagas && u.sagas == t.sagas[a.saga := NewSaga(a, now)]
    ensures |LiveSagas(u, a.sub)| == |LiveSagas(t, a.sub)| + 1
  {
    assert LiveSagas(u, a.sub) == LiveSagas(t, a.sub) + {a.saga};
  }

  /** A re-subscribe leaves the row with one live saga exactly when no older
      attempt is still compensating at that moment. */
  lemma ReactivateKeepsOneLive(w: World, a: Attempt, broker: bool)
    requires EnabledUser(w, Subscribe(a, true, broker))
    ensures |LiveSagas(ApplyUser(w, Subscribe(a, true, broker)).t, a.sub)| <= 1 <==> LiveSagas(w.t, a.sub) == {}
  {
    var z := ApplyUser(w, Subscribe(a, true, broker));
    Atomicity.SubscribeEffect(w, a, true, broker);
    OneMoreLive(w.t, z.t, a, w.now);
  }

  // ---------------------------------------- a failed row with an unfinished saga

  /** The row says failed, and a saga of it is not finished: the state from which a
      re-subscribe makes two. */
  ghost predicate Mismatched(w: World, i: SubId) {
    i in w.t.subs && w.t.subs[i].status == MarkedFailed && LiveSagas(w.t, i) != {}
  }

  /** The step is some handler's MarkFailed of row `i`. */
  ghost predicate MarksRow(w: World, a: Action, i: SubId) {
    match a
    case Consumer(x) => x.Write? && w.consumer.FailingSubscription? && w.consumer.sub == i
    case Sweeper(x) =>
      && x == SweepHead(true) && w.sweeper.SweepNext? && w.sweeper.todo != [] && w.sweeper.todo[0] in w.sweeper.snapshot
      && w.sweeper.snapshot[w.sweeper.todo[0]].state.Compensating? && w.sweeper.snapshot[w.sweeper.todo[0]].sub == i
    case Sync(x) =>
      && x.SyncWrite? && x.saga in w.sync && w.sync[x.saga].SyncFailingSubscription?
      && x.saga in w.t.sagas && w.t.sagas[x.saga].sub == i
    case _ => false
  }

  /** The step is the consumer's write, on an older read, to a failed saga of `i`. */
  ghost predicate Reopens(w: World, a: Action, i: SubId) {
    && a == Consumer(Write) && w.consumer.Deciding? && w.consumer.r.sagaId in w.t.sagas
    && w.t.sagas[w.consumer.r.sagaId].sub == i && w.t.sagas[w.consumer.r.sagaId].state.Failed?
    && i in w.t.subs && w.t.subs[i].status == MarkedFailed
  }

  /** Row `i` is failed afterwards exactly when it was or is marked now. */
  ghost predicate MarkedBy(t: Tables, u: Tables, marks: bool, i: SubId) {
    && u.subs.Keys == t.subs.Keys
    && (i in t.subs ==> (u.subs[i].status == MarkedFailed <==> t.subs[i].status == MarkedFailed || marks))
    && (marks ==> i in t.subs)
  }

  lemma FailMarks(w: World, s: SagaId, sub: SubId, i: SubId)
    requires sub in w.t.subs
    ensures MarkedBy(w.t, FailSubscription(w, s, sub).t, sub == i, i)
  {}

  /** A row becomes failed only by a mark. */
  lemma ConsumerMarks(w: World, a: ConsumerAction, i: SubId)
    requires EnabledConsumer(w, a)
    ensures MarkedBy(w.t, ApplyConsumer(w, a).t, MarksRow(w, Consumer(a), i), i)
  {
    if !a.Write? {
      ConsumerWritesNone(w, a);
    } else if w.consumer.FailingSubscription? {
      FailMarks(w, w.consumer.r.sagaId, w.consumer.sub, i);
    } else {
      ConsumerWriteKeepsRows(w);
    }
  }

  lemma ConsumerWriteKeepsRows(w: World)
    requires EnabledConsumer(w, Write) && !w.consumer.FailingSubscription?
    ensures ApplyConsumer(w, Write).t.subs == w.t.subs
  {}

  lemma SweeperMarks(w: World, a: SweeperAction, i: SubId)
    requires EnabledSweeper(w, a)
    ensures MarkedBy(w.t, ApplySweeper(w, a).t, MarksRow(w, Sweeper(a), i), i)
  {
    if a.SweepHead? { HeadMarks(w, a.ok, i); }
  }

  lemma HeadMarks(w: World, ok: bool, i: SubId)
    requires EnabledSweeper(w, SweepHead(ok))
    ensures MarkedBy(w.t, ApplySweeper(w, SweepHead(ok)).t, MarksRow(w, Sweeper(SweepHead(ok)), i), i)
  {
    var s := w.sweeper.todo[0];
    var saga := w.sweeper.snapshot[s];
    if ok && saga.state.Compensating? { FailMarks(w, s, saga.sub, i); }
  }

  lemma SyncMarks(w: World, a: SyncAction, i: SubId)
    requires EnabledSync(w, a)
    ensures MarkedBy(w.t, ApplySync(w, a).t, MarksRow(w, Sync(a), i), i)
  {
    if !a.SyncWrite? {
      SyncWritesNone(w, a);
    } else if w.sync[a.saga].SyncFailingSubscription? {
      FailMarks(w, a.saga, w.t.sagas[a.saga].sub, i);
    } else {
      SyncWriteKeepsRows(w, a.saga);
    }
  }

  lemma SyncWriteKeepsRows(w: World, s: SagaId)
    requires EnabledSync(w, SyncWrite(s)) && !w.sync[s].SyncFailingSubscription?
    ensures ApplySync(w, SyncWrite(s)).t.subs == w.t.subs
  {}

  lemma UserFailsNone(w: World, a: UserAction, i: SubId)
    requires EnabledUser(w, a) && i in ApplyUser(w, a).t.subs && ApplyUser(w, a).t.subs[i].status == MarkedFailed
    ensures i in w.t.subs && w.t.subs[i].status == MarkedFailed
    ensures a.Subscribe? ==> a.a.sub != i
  {
    if a.Subscribe? { Atomicity.SubscribeEffect(w, a.a, a.reactivate, a.broker); }
  }

  lemma RowsMarked(w: World, a: Action, i: SubId)
    requires Enabled(w, a)
    ensures var z := Apply(w, a);
            && (i in z.t.subs && z.t.subs[i].status == MarkedFailed ==>
                  i in w.t.subs && (w.t.subs[i].status == MarkedFailed || MarksRow(w, a, i)))
            && (MarksRow(w, a, i) || (a == Consumer(Write) && i in w.t.subs && w.t.subs[i].status == MarkedFailed) ==>
                  i in z.t.subs && z.t.subs[i].status == MarkedFailed)
  {
    match a
    case User(x) => if i in ApplyUser(w, x).t.subs && ApplyUser(w, x).t.subs[i].status == MarkedFailed { UserFailsNone(w, x, i); }
    case Consumer(x) => ConsumerMarks(w, x, i);
    case Sweeper(x) => SweeperMarks(w, x, i);
    case Sync(x) => SyncMarks(w, x, i);
    case Relay(x) => Frames.RelayMoves(w, x);
    case Notifier(x) => Frames.NotifierMoves(w, x);
    case Other(x) => Frames.OtherMoves(w, x);
  }

  lemma MarkWritesNone(w: World, a: Action, i: SubId, s: SagaId)
    requires Enabled(w, a) && MarksRow(w, a, i)
    ensures Written(w, a, s).None?
  {}

  /** A saga of a row that is failed after the step becomes unfinished only by
      being reopened. */
  lemma LiveAgain(w: World, a: Action, i: SubId, s: SagaId)
    requires Atomicity.Inv(w) && Decisions.Inv(w) && Enabled(w, a) && i in w.t.subs && w.t.subs[i].status == MarkedFailed
    requires i in Apply(w, a).t.subs && Apply(w, a).t.subs[i].status == MarkedFailed
    requires s in LiveSagas(Apply(w, a).t, i) && s !in LiveSagas(w.t, i)
    ensures Reopens(w, a, i)
  {
    if s in w.t.sagas {
      SubStays(w, a, s);
      StatesAreWritten(w, a, s);
      if w.t.sagas[s].state.Failed? { FailedIsLeftExactly(w, a, s); } else { Decisions.CompletedStays(w, a, s); }
    } else {
      NewSagaRevives(w, a, s, i);
    }
  }

  lemma NewSagaRevives(w: World, a: Action, s: SagaId, i: SubId)
    requires Enabled(w, a) && s !in w.t.sagas && s in Apply(w, a).t.sagas && Apply(w, a).t.sagas[s].sub == i
    ensures Atomicity.Subscribes(a) && i in Apply(w, a).t.subs && Apply(w, a).t.subs[i].status == Pending
  {
    if Atomicity.Subscribes(a) { Atomicity.SubscribeEffect(w, a.user.a, a.user.reactivate, a.user.broker); }
    else { Atomicity.StepKeepsShape(w, a); }
  }

  lemma MarkMismatches(w: World, a: Action, i: SubId)
    requires Decisions.Inv(w) && Enabled(w, a) && MarksRow(w, a, i) && LiveSagas(w.t, i) != {}
    ensures Mismatched(Apply(w, a), i)
  {
    RowsMarked(w, a, i);
    var s :| s in LiveSagas(w.t, i);
    StatesAreWritten(w, a, s);
    MarkWritesNone(w, a, i, s);
    SubStays(w, a, s);
    assert s in LiveSagas(Apply(w, a).t, i);
  }

  lemma ReopenMismatches(w: World, a: Action, i: SubId)
    requires Decisions.Inv(w) && Enabled(w, a) && Reopens(w, a, i)
    ensures Mismatched(Apply(w, a), i)
  {
    RowsMarked(w, a, i);
    var s := w.consumer.r.sagaId;
    StatesAreWritten(w, a, s);
    SubStays(w, a, s);
    assert s in LiveSagas(Apply(w, a).t, i);
  }

  /** Over all executions, a step leaves a failed row with an unfinished saga if
      and only if it is a handler's mark of a row that has one, its own or a newer
      attempt's, or the consumer's write that reopens a failed saga of the row. */
  lemma MismatchArisesExactly(past: seq<Action>, w: World, a: Action, i: SubId)
    requires Run(Init(), past, w) && Enabled(w, a) && !Mismatched(w, i)
    ensures Mismatched(Apply(w, a), i) <==> (MarksRow(w, a, i) && LiveSagas(w.t, i) != {}) || Reopens(w, a, i)
  {
    Decisions.RunIsStable(Init(), past, w);
    MismatchStep(w, a, i);
  }

  lemma MismatchStep(w: World, a: Action, i: SubId)
    requires Atomicity.Inv(w) && Decisions.Inv(w) && Enabled(w, a) && !Mismatched(w, i)
    ensures Mismatched(Apply(w, a), i) <==> (MarksRow(w, a, i) && LiveSagas(w.t, i) != {}) || Reopens(w, a, i)
  {
    if MarksRow(w, a, i) && LiveSagas(w.t, i) != {} {
      MarkMismatches(w, a, i);
    } else if Reopens(w, a, i) {
      ReopenMismatches(w, a, i);
    } else {
      NoMismatch(w, a, i);
    }
  }

  lemma NoMismatch(w: World, a: Action, i: SubId)
    requires Atomicity.Inv(w) && Decisions.Inv(w) && Enabled(w, a) && !Mismatched(w, i)
    requires !(MarksRow(w, a, i) && LiveSagas(w.t, i) != {}) && !Reopens(w, a, i)
    ensures !Mismatched(Apply(w, a), i)
  {
    RowsMarked(w, a, i);
    forall s | i in Apply(w, a).t.subs && Apply(w, a).t.subs[i].status == MarkedFailed
      ensures s !in LiveSagas(Apply(w, a).t, i)
    {
      if s in LiveSagas(Apply(w, a).t, i) {
        if MarksRow(w, a, i) { MarkAddsNone(w, a, i, s); } else { LiveAgain(w, a, i, s); }
      }
    }
  }

  lemma MarkAddsNone(w: World, a: Action, i: SubId, s: SagaId)
    requires Decisions.Inv(w) && Enabled(w, a) && MarksRow(w, a, i) && s in LiveSagas(Apply(w, a).t, i)
    ensures s in LiveSagas(w.t, i)
  {
    assert !Atomicity.Subscribes(a);
    Atomicity.StepKeepsShape(w, a);
    StatesAreWritten(w, a, s);
    MarkWritesNone(w, a, i, s);
  }

  // ----------------------------------------------------------- sagas stuck for good

  /** Some handler has already marked the subscription of `s` failed and is about
      to record it. */
  ghost predicate PastMark(w: World, s: SagaId) {
    || (w.consumer.FailingSaga? && w.consumer.r.sagaId == s)
    || (w.sweeper.SweepFailing? && w.sweeper.saga == s)
    || (s in w.sync && w.sync[s].SyncFailingSaga?)
  }

  ghost predicate Orphaned(w: World, s: SagaId) {
    s in w.t.sagas && w.t.sagas[s].state.Compensating? && w.t.sagas[s].sub !in w.t.subs
  }

  lemma GoneStaysGone(w: World, a: Action, i: SubId)
    requires Enabled(w, a) && i !in w.t.subs && i < w.ids.nextSub
    ensures i !in Apply(w, a).t.subs
  {
    if Atomicity.Subscribes(a) { Atomicity.SubscribeEffect(w, a.user.a, a.user.reactivate, a.user.broker); }
    else { Atomicity.StepKeepsShape(w, a); }
  }

  lemma SubStays(w: World, a: Action, s: SagaId)
    requires Enabled(w, a) && s in w.t.sagas
    ensures s in Apply(w, a).t.sagas && Apply(w, a).t.sagas[s].sub == w.t.sagas[s].sub
  {
    if Atomicity.Subscribes(a) { Atomicity.SubscribeEffect(w, a.user.a, a.user.reactivate, a.user.broker); }
    else { Atomicity.StepKeepsShape(w, a); }
  }

  lemma SweeperMarksOnlyLive(w: World, a: SweeperAction, s: SagaId)
    requires Decisions.SweeperKnows(w) && EnabledSweeper(w, a) && Orphaned(w, s) && !PastMark(w, s)
    ensures !PastMark(ApplySweeper(w, a), s)
  {
    if a.SweepHead? { assert Decisions.SnapshotHolds(w, w.sweeper.todo[0], w.sweeper.snapshot[w.sweeper.todo[0]]); }
  }

  lemma OrphanStaysUnmarked(w: World, a: Action, s: SagaId)
    requires Decisions.Inv(w) && Enabled(w, a) && Orphaned(w, s) && !PastMark(w, s)
    ensures !PastMark(Apply(w, a), s)
  {
    match a
    case Sweeper(x) => Frames.SweeperMoves(w, x); SweeperMarksOnlyLive(w, x, s);
    case Consumer(x) => ConsumerMarksOnlyLive(w, x, s);
    case Sync(x) => Frames.SyncMoves(w, x); SyncMarksOnlyLive(w, x, s);
    case User(x) => UserMarksNone(w, x, s);
    case Relay(x) => Frames.RelayMoves(w, x);
    case Notifier(x) => Frames.NotifierMoves(w, x);
    case Other(x) => Frames.OtherMoves(w, x);
  }

  lemma ConsumerMarksOnlyLive(w: World, a: ConsumerAction, s: SagaId)
    requires Decisions.ConsumerKnows(w) && EnabledConsumer(w, a) && Orphaned(w, s) && !PastMark(w, s)
    ensures !PastMark(ApplyConsumer(w, a), s)
  {}

  lemma SyncMarksOnlyLive(w: World, a: SyncAction, s: SagaId)
    requires EnabledSync(w, a) && Orphaned(w, s) && !PastMark(w, s)
    ensures s in ApplySync(w, a).sync ==> !ApplySync(w, a).sync[s].SyncFailingSaga?
  {}

  lemma UserMarksNone(w: World, a: UserAction, s: SagaId)
    requires EnabledUser(w, a) && !PastMark(w, s)
    ensures !PastMark(ApplyUser(w, a), s)
  {}

  lemma OrphanStep(w: World, a: Action, s: SagaId)
    requires Atomicity.Inv(w) && Decisions.Inv(w) && Enabled(w, a) && Orphaned(w, s) && !PastMark(w, s)
    ensures Orphaned(Apply(w, a), s) && !PastMark(Apply(w, a), s)
  {
    StatesAreWritten(w, a, s);
    SubStays(w, a, s);
    GoneStaysGone(w, a, w.t.sagas[s].sub);
    OrphanStaysUnmarked(w, a, s);
    if s in w.sync { assert Decisions.CallerKnows(w, s, w.sync[s]); }
  }

  lemma {:induction false} OrphanStays(w: World, actions: seq<Action>, end: World, s: SagaId)
    requires Atomicity.Inv(w) && Decisions.Inv(w) && Run(w, actions, end) && Orphaned(w, s) && !PastMark(w, s)
    ensures Orphaned(end, s)
    decreases |actions|
  {
    if actions != [] {
      OrphanStep(w, actions[0], s);
      Atomicity.StepKeepsInv(w, actions[0]);
      Decisions.StepKeepsInv(w, actions[0]);
      OrphanStays(Apply(w, actions[0]), actions[1..], end, s);
    }
  }

  ghost predicate CanFinish(w: World, s: SagaId) {
    exists actions, end :: Run(w, actions, end) && s in end.t.sagas && Terminal(end.t.sagas[s].state)
  }

  lemma MarkedCanFinish(w: World, s: SagaId)
    requires Decisions.Inv(w) && s in w.t.sagas && PastMark(w, s)
    ensures CanFinish(w, s)
  {
    var a := if w.consumer.FailingSaga? && w.consumer.r.sagaId == s then Consumer(Write)
    else if w.sweeper.SweepFailing? && w.sweeper.saga == s then Sweeper(SweepFail(true))
    else Sync(SyncWrite(s));
    assert Enabled(w, a);
    StatesAreWritten(w, a, s);
    OneStepRun(w, a);
  }

  /** A compensating saga whose subscription was deleted can still finish exactly
      when some handler had marked the subscription before it went. */
  lemma DeletedSubscriptionSticks(past: seq<Action>, w: World, s: SagaId)
    requires Run(Init(), past, w) && Orphaned(w, s)
    ensures CanFinish(w, s) <==> PastMark(w, s)
  {
    Decisions.RunIsStable(Init(), past, w);
    if PastMark(w, s) {
      MarkedCanFinish(w, s);
    } else {
      forall actions, end | Run(w, actions, end) ensures s in end.t.sagas && !Terminal(end.t.sagas[s].state) {
        OrphanStays(w, actions, end, s);
      }
    }
  }

  /** A gRPC saga whose caller is gone before any write. */
  ghost predicate Abandoned(w: World, s: SagaId) {
    s in w.ids.grpc && s in w.t.sagas && w.t.sagas[s].state.SubscriptionCreated? && s !in w.sync
  }

  lemma AbandonedStep(w: World, a: Action, s: SagaId)
    requires Atomicity.Inv(w) && Decisions.Inv(w) && Enabled(w, a) && Abandoned(w, s)
    ensures Abandoned(Apply(w, a), s)
  {
    StatesAreWritten(w, a, s);
    AbandonedIsUnwritten(w, a, s);
    CallersStayGone(w, a, s);
  }

  /** Nobody is about to write its state. */
  lemma AbandonedIsUnwritten(w: World, a: Action, s: SagaId)
    requires Atomicity.RowsMatchSagas(w) && Decisions.RepliesOwned(w) && Decisions.SweeperKnows(w)
    requires Abandoned(w, s)
    ensures Written(w, a, s).None?
  {
    if w.sweeper.SweepFailing? { assert w.sweeper.saga != s; }
  }

  lemma CallersStayGone(w: World, a: Action, s: SagaId)
    requires Enabled(w, a) && s in w.ids.grpc && s in w.t.sagas && s !in w.sync
    ensures s in Apply(w, a).ids.grpc && s !in Apply(w, a).sync
  {
    if Atomicity.Subscribes(a) { Atomicity.SubscribeEffect(w, a.user.a, a.user.reactivate, a.user.broker); }
    else { Atomicity.StepKeepsShape(w, a); }
  }

  /** A gRPC saga that lost its caller after T1 waits forever: nothing re-drives
      it, because it has no outbox row. */
  lemma {:induction false} AbandonedStays(w: World, actions: seq<Action>, end: World, s: SagaId)
    requires Atomicity.Inv(w) && Decisions.Inv(w) && Run(w, actions, end) && Abandoned(w, s)
    ensures s in end.t.sagas && end.t.sagas[s].state.SubscriptionCreated?
    decreases |actions|
  {
    if actions != [] {
      AbandonedStep(w, actions[0], s);
      Atomicity.StepKeepsInv(w, actions[0]);
      Decisions.StepKeepsInv(w, actions[0]);
      AbandonedStays(Apply(w, actions[0]), actions[1..], end, s);
    }
  }
}
