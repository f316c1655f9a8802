/** What the sweeper's bounded batch costs: a hundred sagas that lost their
    callers keep every younger saga from ever being swept. */
module Starvation {
  import opened Model
  import opened Protocol
  import opened Stores
  import S = Sweepers
  import Atomicity
  import Decisions
  import Frames
  import Limits
  import Recovery

  /** Sweeping this entry has nothing to do: its row is gone, or all of its
      outbox rows (none, over gRPC) already wait for the relay. */
  ghost predicate Inert(t: Tables, s: SagaId, saga: Saga) {
    && (saga.state.Compensating? ==> saga.sub !in t.subs)
    && (saga.state.SubscriptionCreated? ==>
          forall r | r in t.outbox && t.outbox[r].sagaId == s :: t.outbox[r].publishedAt.None?)
  }

  lemma InertEntryStays(db: Db, s: SagaId, saga: Saga)
    requires Inert(db.t, s, saga)
    ensures S.SweepOne(db, s, saga).t == db.t
  {
    if saga.state.SubscriptionCreated? { assert Requeue(db.t, s).outbox == db.t.outbox; }
  }

  lemma {:induction false} InertBatchStays(db: Db, batch: S.Batch)
    requires forall i | 0 <= i < |batch| :: Inert(db.t, batch[i].0, batch[i].1)
    ensures S.SweepList(db, batch).t == db.t
    decreases |batch|
  {
    if batch != [] {
      InertEntryStays(db, batch[0].0, batch[0].1);
      InertBatchStays(S.SweepOne(db, batch[0].0, batch[0].1), batch[1..]);
    }
  }

  /** Sweeping any other entry leaves a mark that the rest of the pass keeps. */
  lemma ActiveEntryMoves(t: Tables, now: nat, s: SagaId, rest: S.Batch)
    requires s in t.sagas && !Inert(t, s, t.sagas[s])
    ensures S.SweepList(S.SweepOne(Db(t, [], now), s, t.sagas[s]), rest).t != t
  {
    var db := S.SweepOne(Db(t, [], now), s, t.sagas[s]);
    var u := S.SweepList(db, rest).t;
    S.SweepIsConfined(db, rest);
    if t.sagas[s].state.Compensating? {
      assert db.t.sagas[s].state.Failed? && u.sagas[s].state.Failed?;
    } else {
      var r :| r in t.outbox && t.outbox[r].sagaId == s && t.outbox[r].publishedAt.Some?;
      assert db.t.outbox[r].publishedAt.None? && u.outbox[r].publishedAt.None?;
    }
  }

  lemma {:induction false} ActiveBatchMoves(t: Tables, now: nat, ids: seq<SagaId>, k: nat)
    requires forall i | 0 <= i < |ids| :: ids[i] in t.sagas
    requires k < |ids| && !Inert(t, ids[k], t.sagas[ids[k]])
    ensures S.SweepList(Db(t, [], now), S.Snapshot(t, ids)).t != t
    decreases |ids|
  {
    Recovery.SnapshotCons(t, ids);
    if Inert(t, ids[0], t.sagas[ids[0]]) {
      var db := S.SweepOne(Db(t, [], now), ids[0], t.sagas[ids[0]]);
      InertEntryStays(Db(t, [], now), ids[0], t.sagas[ids[0]]);
      assert db.faults == [] && db.now == now;
      ActiveBatchMoves(t, now, ids[1..], k - 1);
    } else {
      ActiveEntryMoves(t, now, ids[0], S.Snapshot(t, ids[1..]));
    }
  }

  /** A pass in which every statement works changes nothing exactly when no saga
      of its batch can move. */
  lemma PassIsIdleExactly(t: Tables, now: nat, ids: seq<SagaId>)
    requires forall i | 0 <= i < |ids| :: ids[i] in t.sagas
    ensures S.SweepList(Db(t, [], now), S.Snapshot(t, ids)).t == t <==>
            forall i | 0 <= i < |ids| :: Inert(t, ids[i], t.sagas[ids[i]])
  {
    if k: nat :| k < |ids| && !Inert(t, ids[k], t.sagas[ids[k]]) {
      ActiveBatchMoves(t, now, ids, k);
    } else {
      InertBatchStays(Db(t, [], now), S.Snapshot(t, ids));
    }
  }

  /** The oldest hundred stale sagas, none of which can move. */
  ghost predicate Blocked(t: Tables, before: nat, ids: seq<SagaId>) {
    && IsResumable(t, before, ids) && |ids| == BATCH
    && (forall i | 0 <= i < |ids| :: Inert(t, ids[i], t.sagas[ids[i]]))
    && (forall s, i | s in t.sagas && s !in ids && !Terminal(t.sagas[s].state) && 0 <= i < |ids| ::
          t.sagas[ids[i]].updatedAt < t.sagas[s].updatedAt)
  }

  /** Two full batches cannot differ without one leaving out a saga of the other. */
  lemma LeftOut(ids: seq<SagaId>, other: seq<SagaId>, x: SagaId) returns (y: SagaId)
    requires forall i, j | 0 <= i < j < |ids| :: ids[i] != ids[j]
    requires forall i, j | 0 <= i < j < |other| :: other[i] != other[j]
    requires |other| <= |ids| && x in other && x !in ids
    ensures y in ids && y !in other
  {
    var a, b := set s | s in ids, set s | s in other;
    DistinctSize(ids, a);
    DistinctSize(other, b);
    if a <= b {
      SubsetSize(a + {x}, b);
    }
    y :| y in a && y !in b;
  }

  lemma BlockedBatchRecurs(t: Tables, before: nat, ids: seq<SagaId>, later: nat, batch: seq<SagaId>, x: SagaId)
    requires Blocked(t, before, ids) && before <= later && IsResumable(t, later, batch) && x in batch
    ensures x in ids
  {
    var j :| 0 <= j < |batch| && batch[j] == x;
    assert Stale(t, later, batch[j]);
    forall y | y in ids ensures y in StaleSagas(t, later) {
      var i :| 0 <= i < |ids| && ids[i] == y;
      assert Stale(t, before, ids[i]);
    }
    if x !in ids {
      var y := LeftOut(ids, batch, x);
    }
  }

  /** While the tables stand still, a full batch of such sagas comes back in every
      pass with the same or a later threshold: a fruitless sweep does not touch
      updated_at. */
  lemma IdlePassRepeats(t: Tables, before: nat, ids: seq<SagaId>, later: nat, batch: seq<SagaId>, faults: seq<Fault>, now: nat)
    requires Blocked(t, before, ids) && before <= later && IsResumable(t, later, batch)
    ensures S.SweepList(Db(t, faults, now), S.Snapshot(t, batch)).t == t
    ensures forall s | s in batch :: s in ids
  {
    forall s | s in batch ensures s in ids { BlockedBatchRecurs(t, before, ids, later, batch, s); }
    forall i | 0 <= i < |batch| ensures Inert(t, batch[i], t.sagas[batch[i]]) {
      assert batch[i] in ids;
      var k :| 0 <= k < |ids| && ids[k] == batch[i];
    }
    InertBatchStays(Db(t, faults, now), S.Snapshot(t, batch));
  }

  // ------------------------------------------------------------- over whole runs

  /** A hundred gRPC sagas without a caller, older than every other saga that is
      not finished. */
  ghost predicate Walled(w: World, ids: seq<SagaId>, m: nat) {
    && |ids| == BATCH && Distinct(ids) && m <= w.now
    && (forall i | 0 <= i < |ids| :: Limits.Abandoned(w, ids[i]) && w.t.sagas[ids[i]].updatedAt < m)
    && (forall s | s in w.t.sagas && s !in ids && !Terminal(w.t.sagas[s].state) :: m <= w.t.sagas[s].updatedAt)
  }

  lemma ConsumerLeaves(w: World, a: ConsumerAction, s: SagaId)
    requires EnabledConsumer(w, a) && s in w.t.sagas && (!w.consumer.ReplyIdle? ==> w.consumer.r.sagaId != s)
    ensures s in ApplyConsumer(w, a).t.sagas && ApplyConsumer(w, a).t.sagas[s] == w.t.sagas[s]
  {}

  lemma SweeperLeaves(w: World, a: SweeperAction, s: SagaId)
    requires EnabledSweeper(w, a) && s in w.t.sagas && (w.sweeper.SweepFailing? ==> w.sweeper.saga != s)
    ensures s in ApplySweeper(w, a).t.sagas && ApplySweeper(w, a).t.sagas[s] == w.t.sagas[s]
  {}

  lemma SyncLeaves(w: World, a: SyncAction, s: SagaId)
    requires EnabledSync(w, a) && s in w.t.sagas && s !in w.sync
    ensures s in ApplySync(w, a).t.sagas && ApplySync(w, a).t.sagas[s] == w.t.sagas[s]
  {}

  lemma OthersLeave(w: World, a: Action, s: SagaId)
    requires Enabled(w, a) && s in w.t.sagas && (a.Relay? || a.Notifier? || a.Other?)
    ensures s in Apply(w, a).t.sagas && Apply(w, a).t.sagas[s] == w.t.sagas[s]
  {
    match a
    case Relay(x) => Frames.RelayMoves(w, x);
    case Notifier(x) => Frames.NotifierMoves(w, x);
    case Other(x) => Frames.OtherMoves(w, x);
  }

  /** No handler holds `s`. */
  ghost predicate Unheld(w: World, s: SagaId) {
    && (!w.consumer.ReplyIdle? ==> w.consumer.r.sagaId != s)
    && (w.sweeper.SweepFailing? ==> w.sweeper.saga != s)
    && s !in w.sync
  }

  lemma UnheldIsUnwritten(w: World, a: Action, s: SagaId)
    requires Enabled(w, a) && s in w.t.sagas && Unheld(w, s)
    ensures s in Apply(w, a).t.sagas && Apply(w, a).t.sagas[s] == w.t.sagas[s]
  {
    match a
    case User(x) => Limits.UserWritesNone(w, x, s);
    case Consumer(x) => ConsumerLeaves(w, x, s);
    case Sweeper(x) => SweeperLeaves(w, x, s);
    case Sync(x) => SyncLeaves(w, x, s);
    case _ => OthersLeave(w, a, s);
  }

  lemma AbandonedIsUnheld(w: World, s: SagaId)
    requires Atomicity.RowsMatchSagas(w) && Decisions.Inv(w) && Limits.Abandoned(w, s)
    ensures Unheld(w, s)
  {}

  /** Nothing writes a saga without a caller, not even its stamp. */
  lemma AbandonedKeepsStamp(w: World, a: Action, s: SagaId)
    requires Atomicity.Inv(w) && Decisions.Inv(w) && Enabled(w, a) && Limits.Abandoned(w, s)
    ensures Limits.Abandoned(Apply(w, a), s)
    ensures Apply(w, a).t.sagas[s].updatedAt == w.t.sagas[s].updatedAt
  {
    Limits.AbandonedStep(w, a, s);
    AbandonedIsUnheld(w, s);
    UnheldIsUnwritten(w, a, s);
  }

  lemma WallStands(w: World, a: Action, ids: seq<SagaId>, m: nat)
    requires Atomicity.Inv(w) && Decisions.Inv(w) && Enabled(w, a) && Walled(w, ids, m)
    ensures Walled(Apply(w, a), ids, m)
  {
    var z := Apply(w, a);
    Limits.StepStamps(w, a);
    forall i | 0 <= i < |ids| ensures Limits.Abandoned(z, ids[i]) && z.t.sagas[ids[i]].updatedAt < m {
      AbandonedKeepsStamp(w, a, ids[i]);
    }
  }

  lemma {:induction false} WallOutlastsRun(w: World, future: seq<Action>, end: World, ids: seq<SagaId>, m: nat)
    requires Atomicity.Inv(w) && Decisions.Inv(w) && Run(w, future, end) && Walled(w, ids, m)
    ensures Atomicity.Inv(end) && Decisions.Inv(end) && Walled(end, ids, m)
    decreases |future|
  {
    if future != [] {
      WallStands(w, future[0], ids, m);
      Atomicity.StepKeepsInv(w, future[0]);
      Decisions.StepKeepsInv(w, future[0]);
      WallOutlastsRun(Apply(w, future[0]), future[1..], end, ids, m);
    }
  }

  lemma BatchIsWall(w: World, ids: seq<SagaId>, m: nat, before: nat, todo: seq<SagaId>, x: SagaId)
    requires Walled(w, ids, m) && IsResumable(w.t, before, todo) && x in todo
    ensures x in ids
  {
    var j :| 0 <= j < |todo| && todo[j] == x;
    assert Stale(w.t, before, todo[j]);
    if x !in ids {
      forall y | y in ids ensures y in StaleSagas(w.t, before) {
        var i :| 0 <= i < |ids| && ids[i] == y;
        assert Limits.Abandoned(w, ids[i]);
      }
      var y := LeftOut(ids, todo, x);
    }
  }

  /** Starvation: once a hundred gRPC sagas have lost their callers and are older
      than the rest, then in every continuation, whatever the users and handlers
      do, no snapshot of the sweeper ever holds any other saga, and no pass over
      such a snapshot changes a table. Recovery is over for everyone else. */
  lemma BlockedForGood(past: seq<Action>, w: World, ids: seq<SagaId>, m: nat, future: seq<Action>, end: World,
                       before: nat, todo: seq<SagaId>, faults: seq<Fault>)
    requires Run(Init(), past, w) && Walled(w, ids, m) && Run(w, future, end)
    requires EnabledSweeper(end, FindStale(before, todo))
    ensures forall s | s in todo :: s in ids
    ensures S.SweepList(Db(end.t, faults, end.now), S.Snapshot(end.t, todo)).t == end.t
  {
    Decisions.RunIsStable(Init(), past, w);
    WallOutlastsRun(w, future, end, ids, m);
    WalledPassIsIdle(end, ids, m, before, todo, faults);
  }

  lemma AbandonedIsInert(w: World, s: SagaId)
    requires Atomicity.RowsMatchSagas(w) && Limits.Abandoned(w, s)
    ensures Inert(w.t, s, w.t.sagas[s])
  {}

  lemma WalledPassIsIdle(w: World, ids: seq<SagaId>, m: nat, before: nat, todo: seq<SagaId>, faults: seq<Fault>)
    requires Atomicity.RowsMatchSagas(w) && Walled(w, ids, m) && IsResumable(w.t, before, todo)
    ensures forall s | s in todo :: s in ids
    ensures S.SweepList(Db(w.t, faults, w.now), S.Snapshot(w.t, todo)).t == w.t
  {
    forall s | s in todo ensures s in ids { BatchIsWall(w, ids, m, before, todo, s); }
    forall i | 0 <= i < |todo| ensures Inert(w.t, todo[i], w.t.sagas[todo[i]]) {
      assert todo[i] in ids;
      var k :| 0 <= k < |ids| && ids[k] == todo[i];
      assert Limits.Abandoned(w, ids[k]);
      AbandonedIsInert(w, todo[i]);
    }
    InertBatchStays(Db(w.t, faults, w.now), S.Snapshot(w.t, todo));
  }

  // --------------------------------------------------------------- it is reachable

  /** As many distinct names as needed. */
  function Name(k: nat): string { seq(k + 1, _ => 'x') }

  function Request(k: nat): Attempt { Attempt(k, Name(k), "o/r", Name(k), "u", Name(k), k) }

  ghost predicate BareRows(w: World, n: nat) {
    && w.now == 0 && w.ids.nextSub == n && w.sync == map[] && w.t.outbox == map[]
    && w.ids.tokenOf.Keys == w.t.sagas.Keys
    && (forall s | s in w.t.sagas :: |s| <= n && w.ids.tokenOf[s] == s)
    && (forall i | i in w.t.subs :: i < n && w.t.subs[i].email == Name(i) && w.t.subs[i].token == Name(i))
  }

  /** `n` callers came and died, each right after its T1. */
  ghost predicate Bare(w: World, n: nat) {
    && BareRows(w, n)
    && (forall k: nat | k < n :: Limits.Abandoned(w, Name(k)) && w.t.sagas[Name(k)].updatedAt == 0)
    && (forall s | s in w.t.sagas :: exists k: nat :: k < n && s == Name(k))
  }

  lemma NextMayStart(w: World, n: nat)
    requires Bare(w, n)
    ensures EnabledUser(w, Subscribe(Request(n), false, false))
  {
    assert |Name(n)| == n + 1;
    assert forall i | i in w.t.subs :: |w.t.subs[i].email| <= n && |w.t.subs[i].token| <= n;
    assert !PairTaken(w.t, Name(n), "o/r") && !TokenTaken(w.t, Name(n));
    assert InsertSubscription(w.t, n, Name(n), "o/r", Name(n)).Some?;
  }

  lemma OneMoreBare(w: World, n: nat) returns (m: World, z: World)
    requires Bare(w, n)
    ensures Enabled(w, User(Subscribe(Request(n), false, false)))
    ensures m == Apply(w, User(Subscribe(Request(n), false, false)))
    ensures Enabled(m, Sync(SyncAbort(Name(n)))) && z == Apply(m, Sync(SyncAbort(Name(n)))) && Bare(z, n + 1)
  {
    NextMayStart(w, n);
    Atomicity.SubscribeEffect(w, Request(n), false, false);
    m := Apply(w, User(Subscribe(Request(n), false, false)));
    assert m.now == 0 && m.sync == map[Name(n) := Calling];
    z := Apply(m, Sync(SyncAbort(Name(n))));
    assert z.t == m.t && z.ids == m.ids && z.sync == map[] && z.now == 0;
    BareGrows(w, n, m, z);
  }

  /** One more saga, by the next name, and no caller. */
  ghost predicate OneMore(w: World, n: nat, z: World) {
    && z.t.sagas == w.t.sagas[Name(n) := NewSaga(Request(n), 0)]
    && z.sync == map[] && z.ids.grpc == w.ids.grpc + {Name(n)}
  }

  lemma BareGrows(w: World, n: nat, m: World, z: World)
    requires Bare(w, n) && Atomicity.Subscribed(w, Request(n), false, false, m)
    requires z.t == m.t && z.ids == m.ids && z.sync == map[] && z.now == 0
    ensures Bare(z, n + 1)
  {
    BareRowsGrow(w, n, m, z);
    OneMoreNamed(w, n, z);
  }

  lemma OneMoreNamed(w: World, n: nat, z: World)
    requires Bare(w, n) && OneMore(w, n, z) && BareRows(z, n + 1)
    ensures Bare(z, n + 1)
  {
    AllAbandoned(w, n, z);
    AllNamed(w, n, z);
  }

  lemma AllNamed(w: World, n: nat, z: World)
    requires forall x | x in w.t.sagas :: exists k: nat :: k < n && x == Name(k)
    requires z.t.sagas.Keys == w.t.sagas.Keys + {Name(n)}
    ensures forall s | s in z.t.sagas :: exists k: nat :: k < n + 1 && s == Name(k)
  {
    forall s | s in z.t.sagas ensures exists k: nat :: k < n + 1 && s == Name(k) { NamedUpTo(w, n, z, s); }
  }

  lemma AllAbandoned(w: World, n: nat, z: World)
    requires Bare(w, n) && z.t.sagas == w.t.sagas[Name(n) := NewSaga(Request(n), 0)]
    requires z.sync == map[] && z.ids.grpc == w.ids.grpc + {Name(n)}
    ensures forall k: nat | k < n + 1 :: Limits.Abandoned(z, Name(k)) && z.t.sagas[Name(k)].updatedAt == 0
  {
    forall k: nat | k < n + 1 ensures Limits.Abandoned(z, Name(k)) && z.t.sagas[Name(k)].updatedAt == 0 {
      if k < n { OldStaysBare(w, n, z, k); }
    }
  }

  lemma NamedUpTo(w: World, n: nat, z: World, s: SagaId)
    requires forall x | x in w.t.sagas :: exists k: nat :: k < n && x == Name(k)
    requires z.t.sagas.Keys == w.t.sagas.Keys + {Name(n)} && s in z.t.sagas
    ensures exists k: nat :: k < n + 1 && s == Name(k)
  {
    if s == Name(n) {
      assert n < n + 1;
    } else {
      var k: nat :| k < n && s == Name(k);
      assert k < n + 1;
    }
  }

  lemma BareRowsGrow(w: World, n: nat, m: World, z: World)
    requires BareRows(w, n) && Atomicity.Subscribed(w, Request(n), false, false, m)
    requires z.t == m.t && z.ids == m.ids && z.sync == map[] && z.now == 0
    ensures BareRows(z, n + 1)
  {
    assert |Name(n)| == n + 1;
  }

  lemma OldStaysBare(w: World, n: nat, z: World, k: nat)
    requires Bare(w, n) && k < n && z.t.sagas == w.t.sagas[Name(n) := NewSaga(Request(n), 0)]
    requires z.sync == map[] && w.ids.grpc <= z.ids.grpc
    ensures Limits.Abandoned(z, Name(k)) && z.t.sagas[Name(k)].updatedAt == 0
  {
    assert Limits.Abandoned(w, Name(k)) && |Name(k)| == k + 1 && |Name(n)| == n + 1;
  }

  lemma {:induction false} BareIsReachable(n: nat) returns (past: seq<Action>, w: World)
    ensures Run(Init(), past, w) && Bare(w, n)
  {
    if n == 0 {
      past, w := [], Init();
    } else {
      var first, w0 := BareIsReachable(n - 1);
      var m, z := OneMoreBare(w0, n - 1);
      var a, b := User(Subscribe(Request(n - 1), false, false)), Sync(SyncAbort(Name(n - 1)));
      OneStepRun(w0, a);
      RunAppend(Init(), first, w0, [a], m);
      OneStepRun(m, b);
      RunAppend(Init(), first + [a], m, [b], z);
      past, w := first + [a] + [b], z;
    }
  }

  /** A hundred abandoned calls and one tick of the clock build the wall. */
  lemma WallIsReachable() returns (past: seq<Action>, w: World, ids: seq<SagaId>)
    ensures Run(Init(), past, w) && Walled(w, ids, 1)
  {
    var first, w0 := BareIsReachable(BATCH);
    OneStepRun(w0, Other(Tick));
    w := Apply(w0, Other(Tick));
    RunAppend(Init(), first, w0, [Other(Tick)], w);
    past := first + [Other(Tick)];
    ids := Names(BATCH);
    BareIsWalled(w0, w, ids);
  }

  function Names(n: nat): (ids: seq<SagaId>)
    ensures |ids| == n && forall k: nat | k < n :: ids[k] == Name(k)
  {
    seq(n, k requires 0 <= k => Name(k))
  }

  lemma BareIsWalled(w: World, z: World, ids: seq<SagaId>)
    requires Bare(w, BATCH) && z == w.(now := 1) && ids == Names(BATCH)
    ensures Walled(z, ids, 1)
  {
    forall i, j | 0 <= i < j < |ids| ensures ids[i] != ids[j] { assert |ids[i]| == i + 1 && |ids[j]| == j + 1; }
    forall i | 0 <= i < |ids| ensures Limits.Abandoned(z, ids[i]) && z.t.sagas[ids[i]].updatedAt < 1 {
      assert ids[i] == Name(i) && Limits.Abandoned(w, Name(i));
    }
    forall s | s in z.t.sagas ensures s in ids {
      var k: nat :| k < BATCH && s == Name(k);
      assert ids[k] == s;
    }
  }
}
