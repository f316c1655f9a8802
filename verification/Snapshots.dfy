/** Which sagas the sweeper's bounded batch can still reach: exactly those with
    fewer than a hundred abandoned sagas before them. */
module Snapshots {
  import opened Model
  import opened Stores
  import opened Protocol
  import opened Refinement
  import N = Notifiers
  import R = ReplyConsumers
  import S = Sweepers
  import Atomicity
  import Callers
  import Decisions
  import Limits
  import Recovery
  import Runs = RecoveryRuns
  import Starvation

  /** Some continuation has `s` in a snapshot of the sweeper. */
  ghost predicate CanBeSwept(w: World, s: SagaId) {
    exists z, before, todo :: Reaches(w, z) && EnabledSweeper(z, FindStale(before, todo)) && s in todo
  }

  predicate Older(t: Tables, x: SagaId, s: SagaId) {
    x in t.sagas && s in t.sagas && t.sagas[x].updatedAt < t.sagas[s].updatedAt
  }

  /** The sagas before `s` that nothing will ever write. */
  ghost function StuckBefore(w: World, s: SagaId): set<SagaId> {
    set x | x in w.t.sagas && Limits.Abandoned(w, x) && Older(w.t, x, s)
  }

  /** The other unfinished ones before `s`. */
  ghost function MovableBefore(w: World, s: SagaId): set<SagaId> {
    set x | x in w.t.sagas && !Terminal(w.t.sagas[x].state) && !Limits.Abandoned(w, x) && Older(w.t, x, s)
  }

  // -------------------------------------------------------------- a full wall hides

  ghost predicate Behind(w: World, s: SagaId, wall: set<SagaId>) {
    s in w.t.sagas && forall x | x in wall :: Limits.Abandoned(w, x) && Older(w.t, x, s)
  }

  lemma BehindStep(w: World, a: Action, s: SagaId, wall: set<SagaId>)
    requires Runs.Sane(w) && Enabled(w, a) && Behind(w, s, wall)
    ensures Behind(Apply(w, a), s, wall)
  {
    Limits.StepStamps(w, a);
    Limits.SubStays(w, a, s);
    forall x | x in wall ensures Limits.Abandoned(Apply(w, a), x) && Older(Apply(w, a).t, x, s) {
      Starvation.AbandonedKeepsStamp(w, a, x);
    }
  }

  lemma {:induction false} BehindForGood(w: World, actions: seq<Action>, end: World, s: SagaId, wall: set<SagaId>)
    requires Runs.Sane(w) && Run(w, actions, end) && Behind(w, s, wall)
    ensures Behind(end, s, wall)
    decreases |actions|
  {
    if actions != [] {
      BehindStep(w, actions[0], s, wall);
      Step(w, actions[0]);
      Runs.ReachesSane(w, Apply(w, actions[0]));
      BehindForGood(Apply(w, actions[0]), actions[1..], end, s, wall);
    }
  }

  lemma WallHides(w: World, s: SagaId, wall: set<SagaId>, before: nat, todo: seq<SagaId>)
    requires Behind(w, s, wall) && |wall| >= BATCH && IsResumable(w.t, before, todo)
    ensures s !in todo
  {
    if s in todo {
      var j :| 0 <= j < |todo| && todo[j] == s;
      assert Stale(w.t, before, todo[j]);
      var batch := set x | x in todo;
      DistinctSize(todo, batch);
      forall x | x in wall ensures x in batch { assert x in StaleSagas(w.t, before); }
      SubsetSize(wall + {s}, batch);
    }
  }

  // ---------------------------------------------------- one saga less in front of it

  /** Something in front of `s` was finished; `s` and the abandoned sagas stand. */
  ghost predicate Overtook(w: World, z: World, s: SagaId, x: SagaId)
    requires s in w.t.sagas
  {
    && Recovery.Advances(w.t, z.t) && z.t.sagas[s] == w.t.sagas[s] && z.ids == w.ids
    && z.sync.Keys <= w.sync.Keys && (forall y | y in w.sync && y !in z.sync && y in z.t.sagas :: Terminal(z.t.sagas[y].state))
    && x in MovableBefore(w, s) && Terminal(z.t.sagas[x].state)
  }

  lemma FewerInFront(w: World, z: World, s: SagaId, x: SagaId)
    requires s in w.t.sagas && Recovery.Live(w.t) && Overtook(w, z, s, x)
    ensures Recovery.Live(z.t) && StuckBefore(z, s) <= StuckBefore(w, s) && |MovableBefore(z, s)| < |MovableBefore(w, s)|
  {
    assert MovableBefore(z, s) <= MovableBefore(w, s) && x !in MovableBefore(z, s);
    SubsetSize(MovableBefore(z, s), MovableBefore(w, s));
  }

  /** The batch of the sagas older than `s` holds one that can move. */
  lemma BatchMoves(w: World, s: SagaId) returns (ids: seq<SagaId>, x: SagaId)
    requires s in w.t.sagas && |StuckBefore(w, s)| < BATCH && MovableBefore(w, s) != {}
    ensures IsResumable(w.t, w.t.sagas[s].updatedAt, ids) && x in ids && x in MovableBefore(w, s) && s !in ids
  {
    var before := w.t.sagas[s].updatedAt;
    ids := Runs.BatchExists(w.t, before, [], StaleSagas(w.t, before));
    var batch := set y | y in ids;
    DistinctSize(ids, batch);
    forall y | y in batch ensures y in MovableBefore(w, s) || y in StuckBefore(w, s) {
      var i :| 0 <= i < |ids| && ids[i] == y;
      assert Stale(w.t, before, ids[i]);
    }
    x :| x in MovableBefore(w, s);
    if x !in ids {
      assert x in StaleSagas(w.t, before);
      x := SomeOutside(batch, StuckBefore(w, s));
    }
  }

  lemma SomeOutside(a: set<SagaId>, b: set<SagaId>) returns (x: SagaId)
    requires |b| < |a|
    ensures x in a && x !in b
  {
    if a <= b { SubsetSize(a, b); }
    x :| x in a && x !in b;
  }

  /** One pass of the sweeper over sagas older than `s`. */
  lemma SweepPasses(w: World, s: SagaId, ids: seq<SagaId>) returns (z: World)
    requires Runs.Idle(w) && s in w.t.sagas && IsResumable(w.t, w.t.sagas[s].updatedAt, ids) && s !in ids
    ensures Reaches(w, z) && z == w.(t := z.t, audit := z.audit)
    ensures Recovery.Advances(w.t, z.t) && z.t.sagas[s] == w.t.sagas[s]
    ensures forall x | x in ids :: x in w.t.sagas && (Recovery.Markable(w.t, x) ==> Recovery.Driven(z.t, x))
  {
    var before := w.t.sagas[s].updatedAt;
    z := SweepIsRun(w, [], before, ids);
    Recovery.ResumableIsCurrent(w.t, before, ids);
    Recovery.SweepDrives(w.t, w.t, ids, w.now);
    S.SweepIsConfined(Db(w.t, [], w.now), S.Snapshot(w.t, ids));
    forall x | x in ids ensures x in w.t.sagas && (Recovery.Markable(w.t, x) ==> Recovery.Driven(z.t, x)) {
      var i :| 0 <= i < |ids| && ids[i] == x;
    }
  }

  /** Every reply but one may be lost. */
  lemma {:induction false} KeepReply(w: World, i: nat) returns (z: World)
    requires i < |w.replies|
    ensures Reaches(w, z) && z == w.(replies := [w.replies[i]], audit := z.audit)
    decreases |w.replies|
  {
    if |w.replies| == 1 {
      Stay(w);
      z := w;
    } else {
      var k := if i == 0 then 1 else 0;
      Step(w, Other(LoseReply(k)));
      var m := Apply(w, Other(LoseReply(k)));
      z := KeepReply(m, if i == 0 then 0 else i - 1);
      Then(w, m, z);
    }
  }

  lemma CleanTouchesOne(t: Tables, r: Reply, now: nat, s: SagaId)
    requires s in t.sagas && s != r.sagaId
    ensures s in R.Clean(t, r, now).0.sagas && R.Clean(t, r, now).0.sagas[s] == t.sagas[s]
  {}

  /** The requeued row of `x` is published, with all others. */
  lemma CommandComes(w: World, x: SagaId) returns (z: World)
    requires Runs.Idle(w) && x in w.t.sagas && w.t.sagas[x].state.SubscriptionCreated?
    requires Recovery.Driven(w.t, x) && Recovery.HasCommand(w.t, x)
    ensures Reaches(w, z) && z == w.(t := z.t, commands := z.commands, published := z.published)
    ensures Recovery.Advances(w.t, z.t) && z.t.sagas == w.t.sagas && z.t.subs == w.t.subs
    ensures exists d :: d in z.commands && IsSagaCommand(d) && d.body.sagaId == x
  {
    z := Runs.DrainAllIsRun(w);
    Recovery.DrainAllPublishes(w.t, w.commands, w.now);
    var r :| r in w.t.outbox && w.t.outbox[r].sagaId == x && IsSagaCommand(w.t.outbox[r].message) &&
             w.t.outbox[r].message.body.sagaId == x;
    assert r in Unpublished(w.t) && w.t.outbox[r].message in z.commands;
  }

  /** From the requeued row of `x` to its answer, and to nobody else's. */
  lemma AnswerComes(w: World, x: SagaId) returns (z: World)
    requires Runs.Idle(w) && x in w.t.sagas && w.t.sagas[x].state.SubscriptionCreated?
    requires Recovery.Driven(w.t, x) && Recovery.HasCommand(w.t, x)
    ensures Reaches(w, z) && Runs.Idle(z) && Recovery.Advances(w.t, z.t) && z.t.sagas == w.t.sagas && z.t.subs == w.t.subs
    ensures z.ids == w.ids && z.sync == w.sync && z.now == w.now
    ensures |z.replies| == 1 && z.replies[0].sagaId == x && !z.replies[0].status.UnknownStatus?
  {
    var drained := CommandComes(w, x);
    var e := N.Env(w.dedup, [], [], [], w.replies, []);
    Recovery.ConsumeAllAnswers(e, drained.commands);
    var consumed := Runs.ConsumeAllIsRun(drained, e);
    Then(w, drained, consumed);
    assert Recovery.Answered(consumed.replies, x);
    var i :| 0 <= i < |consumed.replies| && (consumed.replies[i] == Reply(x, Sent) || consumed.replies[i] == Reply(x, NotSent));
    z := KeepReply(consumed, i);
    Then(w, consumed, z);
  }

  lemma AnswerFinishes(w: World, x: SagaId) returns (z: World)
    requires Runs.Idle(w) && Recovery.Live(w.t) && x in w.t.sagas && w.t.sagas[x].state.SubscriptionCreated?
    requires |w.replies| == 1 && w.replies[0].sagaId == x && !w.replies[0].status.UnknownStatus?
    ensures Reaches(w, z) && Recovery.Advances(w.t, z.t) && Terminal(z.t.sagas[x].state)
    ensures z.ids == w.ids && z.sync == w.sync
    ensures forall s | s in w.t.sagas && s != x :: z.t.sagas[s] == w.t.sagas[s]
  {
    z := Runs.ReplyIsRun(w);
    Recovery.CleanAdvances(w.t, w.replies[0], w.now);
    forall s | s in w.t.sagas && s != x ensures z.t.sagas[s] == w.t.sagas[s] { CleanTouchesOne(w.t, w.replies[0], w.now, s); }
  }

  /** A broker saga, or a decided one, by a pass of the sweeper. */
  lemma SweepOvertakes(w: World, s: SagaId, ids: seq<SagaId>, x: SagaId) returns (z: World)
    requires Runs.Idle(w) && Runs.Sane(w) && Recovery.Live(w.t) && s in w.t.sagas
    requires IsResumable(w.t, w.t.sagas[s].updatedAt, ids) && s !in ids && x in ids && x in MovableBefore(w, s)
    requires w.t.sagas[x].state.SubscriptionCreated? ==> x !in w.ids.grpc
    ensures Reaches(w, z) && Overtook(w, z, s, x)
  {
    z := SweepPasses(w, s, ids);
    if w.t.sagas[x].state.SubscriptionCreated? {
      var swept := z;
      Recovery.InvHasCommands(w, x);
      Recovery.CommandStays(w.t, swept.t, x);
      if !Terminal(swept.t.sagas[x].state) {
        var answered := AnswerComes(swept, x);
        Then(w, swept, answered);
        z := AnswerFinishes(answered, x);
        Then(w, answered, z);
        Recovery.AdvancesTransitive(w.t, swept.t, answered.t);
        Recovery.AdvancesTransitive(w.t, answered.t, z.t);
      }
    }
  }

  /** A waiting gRPC saga, by its caller. */
  lemma CallerOvertakes(w: World, s: SagaId, x: SagaId) returns (z: World)
    requires Runs.Sane(w) && Recovery.Live(w.t) && s in w.t.sagas && x in MovableBefore(w, s) && Callers.Waits(w, x)
    ensures Reaches(w, z) && Overtook(w, z, s, x)
  {
    z := Callers.CallerFinishes(w, x);
    FinishedOvertakes(w, z, s, x);
  }

  lemma FinishedOvertakes(w: World, z: World, s: SagaId, x: SagaId)
    requires s in w.t.sagas && x in MovableBefore(w, s) && Callers.Finished(w, z, x)
    ensures Overtook(w, z, s, x)
  {}

  lemma SameInFront(w: World, m: World, s: SagaId)
    requires m.t == w.t && m.ids == w.ids && m.sync == w.sync
    ensures StuckBefore(m, s) == StuckBefore(w, s) && MovableBefore(m, s) == MovableBefore(w, s)
  {}

  lemma OvertakeOne(w: World, s: SagaId) returns (z: World, x: SagaId)
    requires Runs.Sane(w) && Recovery.Live(w.t) && s in w.t.sagas
    requires |StuckBefore(w, s)| < BATCH && MovableBefore(w, s) != {}
    ensures Reaches(w, z) && Overtook(w, z, s, x)
  {
    var ids: seq<SagaId>;
    ids, x := BatchMoves(w, s);
    if Callers.Waits(w, x) {
      z := CallerOvertakes(w, s, x);
    } else {
      var m := Runs.Interrupt(w);
      Runs.ReachesSane(w, m);
      SameInFront(w, m, s);
      z := SweepOvertakes(m, s, ids, x);
      Then(w, m, z);
    }
  }

  lemma {:induction false} OvertakeAll(w: World, s: SagaId) returns (z: World)
    requires Runs.Sane(w) && Recovery.Live(w.t) && s in w.t.sagas && |StuckBefore(w, s)| < BATCH
    ensures Reaches(w, z) && s in z.t.sagas && z.t.sagas[s] == w.t.sagas[s]
    ensures |StuckBefore(z, s)| < BATCH && MovableBefore(z, s) == {}
    decreases |MovableBefore(w, s)|
  {
    if MovableBefore(w, s) == {} {
      Stay(w);
      z := w;
    } else {
      var m, x := OvertakeOne(w, s);
      Runs.ReachesSane(w, m);
      FewerInFront(w, m, s, x);
      SubsetSize(StuckBefore(m, s), StuckBefore(w, s));
      z := OvertakeAll(m, s);
      Then(w, m, z);
    }
  }

  // --------------------------------------------------------------- then it is its turn

  lemma ItsTurn(w: World, s: SagaId) returns (todo: seq<SagaId>)
    requires s in w.t.sagas && !Terminal(w.t.sagas[s].state)
    requires |StuckBefore(w, s)| < BATCH && MovableBefore(w, s) == {}
    ensures IsResumable(w.t, w.t.sagas[s].updatedAt + 1, todo) && s in todo
  {
    var stamp := w.t.sagas[s].updatedAt;
    var older := StaleSagas(w.t, stamp);
    forall x | x in older ensures x in StuckBefore(w, s) { assert x !in MovableBefore(w, s); }
    SubsetSize(older, StuckBefore(w, s));
    var ids := Runs.BatchExists(w.t, stamp, [], older);
    AllOldest(w.t, stamp, ids);
    var picked := ids + [s];
    var left := set x | x in StaleSagas(w.t, stamp + 1) && x !in picked;
    NextIsPicked(w.t, s, ids, picked, left);
    todo := Runs.BatchExists(w.t, stamp + 1, picked, left);
    assert picked[|ids|] == s && todo[|ids|] == s;
  }

  /** A batch that is not full leaves nothing out. */
  lemma AllOldest(t: Tables, before: nat, ids: seq<SagaId>)
    requires IsResumable(t, before, ids) && |StaleSagas(t, before)| < BATCH
    ensures |ids| < BATCH && forall x :: x in ids <==> x in StaleSagas(t, before)
  {
    var batch := set x | x in ids;
    DistinctSize(ids, batch);
    forall x | x in ids ensures x in StaleSagas(t, before) {
      var i :| 0 <= i < |ids| && ids[i] == x;
      assert Stale(t, before, ids[i]);
    }
    SubsetSize(batch, StaleSagas(t, before));
  }

  lemma NextIsPicked(t: Tables, s: SagaId, ids: seq<SagaId>, picked: seq<SagaId>, left: set<SagaId>)
    requires s in t.sagas && !Terminal(t.sagas[s].state) && IsResumable(t, t.sagas[s].updatedAt, ids) && |ids| < BATCH
    requires forall x :: x in ids <==> x in StaleSagas(t, t.sagas[s].updatedAt)
    requires picked == ids + [s] && left == set x | x in StaleSagas(t, t.sagas[s].updatedAt + 1) && x !in picked
    ensures Runs.Picked(t, t.sagas[s].updatedAt + 1, picked, left)
  {
    var stamp := t.sagas[s].updatedAt;
    forall i | 0 <= i < |picked| ensures Stale(t, stamp + 1, picked[i]) && (i < |ids| ==> t.sagas[picked[i]].updatedAt < stamp) {
      if i < |ids| { assert Stale(t, stamp, ids[i]); }
    }
    forall x | x in left ensures t.sagas[x].updatedAt == stamp {
      assert x !in ids;
    }
  }

  /** An unfinished saga of a reachable state comes into a snapshot of the sweeper in
      some continuation, from the middle of any handlers, if and only if fewer than a
      hundred gRPC sagas that lost their callers are older. Everything else in front
      of it can be got out of the way; a hundred of those hide it for good. */
  lemma SweptExactly(past: seq<Action>, w: World, s: SagaId)
    requires Run(Init(), past, w) && Recovery.Live(w.t) && s in w.t.sagas && !Terminal(w.t.sagas[s].state)
    ensures CanBeSwept(w, s) <==> |StuckBefore(w, s)| < 100
  {
    Runs.InitIsSane(past, w);
    if |StuckBefore(w, s)| < BATCH {
      var m := OvertakeAll(w, s);
      var z := Runs.Interrupt(m);
      Then(w, m, z);
      SameInFront(m, z, s);
      var todo := ItsTurn(z, s);
      assert EnabledSweeper(z, FindStale(z.t.sagas[s].updatedAt + 1, todo));
    } else {
      forall z, before, todo | Reaches(w, z) && EnabledSweeper(z, FindStale(before, todo)) ensures s !in todo {
        var actions :| Run(w, actions, z);
        BehindForGood(w, actions, z, s, StuckBefore(w, s));
        WallHides(z, s, StuckBefore(w, s), before, todo);
      }
    }
  }
}
