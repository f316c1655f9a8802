/** Recovery inside the protocol: a failure-free round is itself a run of the
    state machine, so every reachable state can be driven to the end. */
module RecoveryRuns {
  import opened Model
  import opened Stores
  import opened Protocol
  import opened Refinement
  import N = Notifiers
  import R = ReplyConsumers
  import Recovery
  import Atomicity
  import Decisions
  import Limits
  import Callers

  predicate Idle(w: World) {
    w.relay.RelayIdle? && w.notifier.NotifierIdle? && w.consumer.ReplyIdle? && w.sweeper.SweepIdle?
  }

  // ------------------------------------------------------------------ the four phases

  lemma {:induction false} DrainAllIsRun(w: World) returns (z: World)
    requires w.relay.RelayIdle?
    ensures var (t, commands) := Recovery.DrainAll(w.t, w.commands, w.now);
            Reaches(w, z) && z == w.(t := t, commands := commands, published := z.published)
    decreases |Unpublished(w.t)|
  {
    if Unpublished(w.t) == {} {
      Stay(w);
      z := w;
    } else {
      Recovery.CleanDrain(w.t, w.commands, w.now);
      var m := DrainIsRun(w, [], []);
      z := DrainAllIsRun(m);
      Then(w, m, z);
    }
  }

  /** Take a command, handle it, settle it. */
  lemma CommandIsRun(w: World, e: N.Env) returns (z: World)
    requires w.notifier.NotifierIdle? && w.commands != [] && Agree(w, e)
    ensures var (e1, _) := N.Handle(e, w.commands[0], N.MAX_ATTEMPTS);
            && Reaches(w, z) && Agree(z, e1) && z.notifier.NotifierIdle?
            && z == w.(commands := w.commands[1..], dedup := z.dedup, replies := z.replies, mail := z.mail, audit := z.audit)
            && (e1.accepted == e.accepted ==> z.mail.sends == w.mail.sends)
  {
    Step(w, Notifier(TakeCommand));
    var m := Apply(w, Notifier(TakeCommand));
    var n := DeliveryIsRun(m, e, w.commands[0], N.MAX_ATTEMPTS);
    Then(w, m, n);
    Step(n, Notifier(Settle));
    z := Apply(n, Notifier(Settle));
    Then(w, n, z);
  }

  /** With the mail server down nothing is sent. */
  lemma SilentHandle(e: N.Env, d: Delivery)
    requires e.smtp == []
    ensures var e1 := N.Handle(e, d, N.MAX_ATTEMPTS).0; e1.smtp == [] && e1.accepted == e.accepted
  {
    N.RetriesAcceptOnce(e, d, N.MAX_ATTEMPTS, N.MAX_ATTEMPTS);
    N.RetriesAcceptOnce(e.(redis := Tail(e.redis)), d, N.MAX_ATTEMPTS, N.MAX_ATTEMPTS);
  }

  lemma {:induction false} ConsumeAllIsRun(w: World, e: N.Env) returns (z: World)
    requires w.notifier.NotifierIdle? && Agree(w, e)
    ensures Reaches(w, z) && Agree(z, Recovery.ConsumeAll(e, w.commands))
    ensures e.smtp == [] ==> z.mail.sends == w.mail.sends
    ensures z == w.(commands := [], dedup := z.dedup, replies := z.replies, mail := z.mail, audit := z.audit)
    decreases |w.commands|
  {
    if w.commands == [] {
      Stay(w);
      z := w;
    } else {
      var m := CommandIsRun(w, e);
      if e.smtp == [] { SilentHandle(e, w.commands[0]); }
      z := ConsumeAllIsRun(m, N.Handle(e, w.commands[0], N.MAX_ATTEMPTS).0);
      Then(w, m, z);
    }
  }

  /** Take a reply, handle it, ack it or drop it. */
  lemma ReplyIsRun(w: World) returns (z: World)
    requires w.consumer.ReplyIdle? && w.replies != []
    ensures Reaches(w, z)
    ensures z == w.(t := R.Clean(w.t, w.replies[0], w.now).0, replies := w.replies[1..], audit := z.audit)
  {
    Step(w, Consumer(TakeReply));
    var m := Apply(w, Consumer(TakeReply));
    var n := HandleIsRun(m, [], w.replies[0]);
    Then(w, m, n);
    var last := if n.consumer.Acking? then AckReply else DropReply;
    Step(n, Consumer(last));
    z := Apply(n, Consumer(last));
    Then(w, n, z);
  }

  lemma {:induction false} RepliesAreRun(w: World) returns (z: World)
    requires w.consumer.ReplyIdle?
    ensures Reaches(w, z)
    ensures z == w.(t := Recovery.HandleReplies(w.t, w.replies, w.now), replies := [], audit := z.audit)
    decreases |w.replies|
  {
    if w.replies == [] {
      Stay(w);
      z := w;
    } else {
      var m := ReplyIsRun(w);
      z := RepliesAreRun(m);
      Then(w, m, z);
    }
  }

  // --------------------------------------------------------------------- the round

  function RoundOf(w: World, before: nat, ids: seq<SagaId>, e: N.Env): Recovery.Round {
    Recovery.Round(before, ids, w.commands, e, w.now)
  }

  /** Sweep, drain, consume and handle: exactly the round of Recovery. */
  lemma RoundIsRun(w: World, before: nat, ids: seq<SagaId>, e: N.Env) returns (z: World)
    requires Idle(w) && Agree(w, e) && Recovery.Possible(w.t, RoundOf(w, before, ids, e))
    ensures Reaches(w, z) && Idle(z) && z.t == Recovery.After(w.t, RoundOf(w, before, ids, e))
    ensures z.ids == w.ids && z.now == w.now && z.commands == [] && z.replies == [] && z.sync == w.sync
    ensures e.smtp == [] ==> z.mail.sends == w.mail.sends
  {
    var swept := SweepIsRun(w, [], before, ids);
    var drained := DrainAllIsRun(swept);
    Then(w, swept, drained);
    var consumed := ConsumeAllIsRun(drained, e);
    Then(w, drained, consumed);
    z := RepliesAreRun(consumed);
    Then(w, consumed, z);
  }

  // ----------------------------------------------------------------------- the end

  /** Every handler can be stopped where it stands, its message back in the queue. */
  lemma Interrupt(w: World) returns (z: World)
    ensures Reaches(w, z) && Idle(z) && z.t == w.t && z.ids == w.ids && z.now == w.now
    ensures z.sync == w.sync && z.mail.sends == w.mail.sends
  {
    Step(w, Relay(StopRelay));
    z := Apply(w, Relay(StopRelay));
    var m := z;
    Step(m, Sweeper(StopSweep));
    z := Apply(m, Sweeper(StopSweep));
    Then(w, m, z);
    if !z.notifier.NotifierIdle? {
      m := z;
      Step(m, Notifier(CrashNotifier));
      z := Apply(m, Notifier(CrashNotifier));
      Then(w, m, z);
    }
    if !z.consumer.ReplyIdle? {
      m := z;
      Step(m, Consumer(CrashConsumer));
      z := Apply(m, Consumer(CrashConsumer));
      Then(w, m, z);
    }
  }

  /** `picked` are the oldest stale sagas so far, `left` the others. */
  ghost predicate Picked(t: Tables, before: nat, picked: seq<SagaId>, left: set<SagaId>) {
    && |picked| <= BATCH && left == (set s | s in StaleSagas(t, before) && s !in picked)
    && Distinct(picked)
    && (forall i | 0 <= i < |picked| :: Stale(t, before, picked[i]))
    && (forall i, j | 0 <= i < j < |picked| :: t.sagas[picked[i]].updatedAt <= t.sagas[picked[j]].updatedAt)
    && (forall s, i | s in left && 0 <= i < |picked| :: t.sagas[picked[i]].updatedAt <= t.sagas[s].updatedAt)
  }

  /** There is always a batch to sweep. */
  lemma {:induction false} BatchExists(t: Tables, before: nat, picked: seq<SagaId>, left: set<SagaId>) returns (ids: seq<SagaId>)
    requires Picked(t, before, picked, left)
    ensures IsResumable(t, before, ids) && picked <= ids
    decreases |left|
  {
    ids := picked;
    if left != {} && |picked| < BATCH {
      OldestExists(t, left);
      var oldest :| oldest in left && forall s | s in left :: t.sagas[oldest].updatedAt <= t.sagas[s].updatedAt;
      ids := BatchExists(t, before, picked + [oldest], left - {oldest});
    } else {
      assert forall s | s in StaleSagas(t, before) && s !in ids :: s in left;
    }
  }

  /** What holds in every reachable state and is used here. */
  ghost predicate Sane(w: World) { Atomicity.Inv(w) && Decisions.Inv(w) && Limits.NoFutureStamps(w) }

  lemma ReachesSane(w: World, z: World)
    requires Sane(w) && Reaches(w, z)
    ensures Sane(z)
  {
    var actions :| Run(w, actions, z);
    Decisions.RunIsStable(w, actions, z);
    Limits.RunKeepsStamps(w, actions, z);
  }

  lemma InitIsSane(past: seq<Action>, w: World)
    requires Run(Init(), past, w)
    ensures Sane(w)
  {
    ReachesSane(Init(), w);
  }

  ghost predicate AllFinished(t: Tables) { forall s | s in t.sagas :: Terminal(t.sagas[s].state) }

  lemma NothingStaleIsLeft(m: World, z: World)
    requires Limits.NoFutureStamps(m) && Recovery.Advances(m.t, z.t) && StaleSagas(z.t, m.now + 1) == {}
    ensures AllFinished(z.t)
  {
    forall s | s in z.t.sagas ensures Terminal(z.t.sagas[s].state) {
      assert z.t.sagas[s] == m.t.sagas[s] || Terminal(z.t.sagas[s].state);
      assert s !in StaleSagas(z.t, m.now + 1);
    }
  }

  lemma SmallerMap<K, V>(m: map<K, V>, k: K)
    requires k in m
    ensures |m - {k}| < |m|
  {
    assert m.Keys == (m - {k}).Keys + {k};
  }

  // -------------------------------------------------- with the mail server down for good

  /** One round in which every mail fails. */
  lemma SilentRound(w: World, b: nat) returns (m: World)
    requires Idle(w) && Recovery.Live(w.t) && Recovery.MendableBut(w.t, {})
    ensures Reaches(w, m) && Idle(m) && Recovery.Live(m.t) && Recovery.MendableBut(m.t, {}) && m.mail.sends == w.mail.sends
    ensures Recovery.Advances(w.t, m.t) && |StaleSagas(m.t, b)| <= Recovery.Remaining(|StaleSagas(w.t, b)|, BATCH, 1)
  {
    var ids := BatchExists(w.t, b, [], StaleSagas(w.t, b));
    var e := N.Env(w.dedup, [], [], [], w.replies, []);
    var round := RoundOf(w, b, ids, e);
    m := RoundIsRun(w, b, ids, e);
    Recovery.LiveIsGentle(w.t, round);
    ShrinkByBatch(w, m, round, b);
  }

  lemma ShrinkByBatch(w: World, m: World, round: Recovery.Round, b: nat)
    requires Recovery.Possible(w.t, round) && m.t == Recovery.After(w.t, round) && round.before == b
    requires Recovery.Gentle(Recovery.Drained(w.t, round).0, Recovery.Replies(w.t, round)) && Recovery.MendableBut(w.t, {})
    ensures Recovery.Advances(w.t, m.t) && Recovery.MendableBut(m.t, {})
    ensures |StaleSagas(m.t, b)| <= Recovery.Remaining(|StaleSagas(w.t, b)|, BATCH, 1)
  {
    Recovery.RoundFinishesBatch(w.t, round);
    Recovery.RoundShrinks(w.t, round, b, {});
    Recovery.MendableStays(w.t, m.t, {});
    assert StaleSagas(m.t, b) - {} == StaleSagas(m.t, b) && StaleSagas(w.t, b) - {} == StaleSagas(w.t, b);
  }

  lemma {:induction false} SilentFinish(w: World, b: nat, n: nat) returns (z: World)
    requires Idle(w) && Recovery.Live(w.t) && Recovery.MendableBut(w.t, {}) && |StaleSagas(w.t, b)| <= BATCH * n
    ensures Reaches(w, z) && StaleSagas(z.t, b) == {} && Recovery.Advances(w.t, z.t) && z.mail.sends == w.mail.sends
    decreases n
  {
    if n == 0 {
      Stay(w);
      z := w;
    } else {
      var m := SilentRound(w, b);
      z := SilentFinish(m, b, n - 1);
      Then(w, m, z);
      Recovery.AdvancesTransitive(w.t, m.t, z.t);
    }
  }

  ghost predicate NoneAbandoned(w: World) { forall s | s in w.t.sagas :: !Limits.Abandoned(w, s) }

  /** One caller less: it finishes its saga, or leaves a decided one to the sweeper. */
  lemma AnswerOne(w: World, s: SagaId) returns (z: World)
    requires Decisions.SyncKnows(w) && Recovery.Live(w.t) && NoneAbandoned(w) && s in w.sync
    ensures Reaches(w, z) && Recovery.Live(z.t) && NoneAbandoned(z) && z.sync == w.sync - {s} && z.mail.sends == w.mail.sends
  {
    assert Decisions.CallerKnows(w, s, w.sync[s]);
    if Callers.Waits(w, s) {
      z := Callers.CallerFinishes(w, s);
    } else {
      Step(w, Sync(SyncAbort(s)));
      z := Apply(w, Sync(SyncAbort(s)));
      assert z.t == w.t && z.ids == w.ids;
    }
    forall x | x in z.t.sagas ensures !Limits.Abandoned(z, x) { assert !Limits.Abandoned(w, x); }
  }

  lemma {:induction false} AnswerAll(w: World) returns (z: World)
    requires Sane(w) && Recovery.Live(w.t) && NoneAbandoned(w)
    ensures Reaches(w, z) && Sane(z) && Recovery.Live(z.t) && NoneAbandoned(z) && z.sync == map[] && z.mail.sends == w.mail.sends
    decreases |w.sync|
  {
    if w.sync == map[] {
      Stay(w);
      z := w;
    } else {
      var s :| s in w.sync;
      var m := AnswerOne(w, s);
      ReachesSane(w, m);
      SmallerMap(w.sync, s);
      z := AnswerAll(m);
      Then(w, m, z);
    }
  }

  /** Without callers and without abandoned sagas everything can be mended. */
  lemma AnsweredIsMendable(w: World)
    requires Sane(w) && w.sync == map[] && NoneAbandoned(w)
    requires forall s | s in w.t.sagas && w.t.sagas[s].state.Compensating? :: w.t.sagas[s].sub in w.t.subs
    ensures Recovery.MendableBut(w.t, {})
  {
    forall s | s in w.t.sagas ensures Recovery.Mendable(w.t, s) {
      assert !Limits.Abandoned(w, s);
      if s !in w.ids.grpc { Recovery.InvHasCommands(w, s); }
    }
  }

  lemma FinishSilently(w: World) returns (z: World)
    requires Sane(w) && Recovery.Live(w.t) && NoneAbandoned(w)
    ensures Reaches(w, z) && AllFinished(z.t) && z.mail.sends == w.mail.sends
  {
    var m := AnswerAll(w);
    AnsweredIsMendable(m);
    var n := Interrupt(m);
    Then(w, m, n);
    z := SilentFinish(n, m.now + 1, |StaleSagas(n.t, m.now + 1)|);
    Then(w, n, z);
    NothingStaleIsLeft(m, z);
  }

  /** From every reachable state, over both transports, whatever was lost and
      whichever handlers are halfway, some continuation finishes every saga even
      though not one more mail is accepted, provided no unfinished saga has lost its
      subscription and no waiting gRPC saga its caller. */
  lemma EveryStateCanFinish(past: seq<Action>, w: World) returns (z: World)
    requires Run(Init(), past, w) && Recovery.Live(w.t) && NoneAbandoned(w)
    ensures Reaches(w, z) && AllFinished(z.t) && z.mail.sends == w.mail.sends
  {
    InitIsSane(past, w);
    z := FinishSilently(w);
  }

  // ---------------------------------------------------------- exactly when all finish

  /** Nothing stands in the way of `s`: a waiting gRPC saga still has hope, and a
      compensating saga without its subscription was marked before. */
  ghost predicate Clear(w: World, s: SagaId)
    requires s in w.t.sagas
  {
    && (Callers.Waits(w, s) ==> Callers.HasHope(w, s))
    && (Limits.Orphaned(w, s) ==> Limits.PastMark(w, s))
  }

  ghost predicate AllClear(w: World) { forall s | s in w.t.sagas :: Clear(w, s) }

  /** Neither the consumer nor the sweeper is between the mark and the last write. */
  predicate Unmarking(w: World) { !w.consumer.FailingSaga? && !w.sweeper.SweepFailing? }

  lemma ConsumerFinishes(w: World) returns (z: World)
    requires Decisions.ConsumerKnows(w) && w.consumer.FailingSaga? && AllClear(w)
    ensures Reaches(w, z) && AllClear(z) && !z.consumer.FailingSaga? && z.sweeper == w.sweeper
  {
    Step(w, Consumer(Write));
    z := Apply(w, Consumer(Write));
    forall s | s in z.t.sagas ensures Clear(z, s) { assert Clear(w, s); }
  }

  lemma SweeperFinishes(w: World) returns (z: World)
    requires Decisions.SweeperKnows(w) && w.sweeper.SweepFailing? && AllClear(w)
    ensures Reaches(w, z) && AllClear(z) && !z.sweeper.SweepFailing? && z.consumer == w.consumer
  {
    Step(w, Sweeper(SweepFail(true)));
    z := Apply(w, Sweeper(SweepFail(true)));
    forall s | s in z.t.sagas ensures Clear(z, s) { assert Clear(w, s); }
  }

  lemma FinishMarks(w: World) returns (z: World)
    requires Sane(w) && AllClear(w)
    ensures Reaches(w, z) && Sane(z) && AllClear(z) && Unmarking(z)
  {
    Stay(w);
    z := w;
    if z.consumer.FailingSaga? { z := ConsumerFinishes(w); }
    ReachesSane(w, z);
    if z.sweeper.SweepFailing? {
      var m := z;
      z := SweeperFinishes(m);
      Then(w, m, z);
      ReachesSane(m, z);
    }
  }

  lemma FinishedKeepsClear(w: World, z: World, s: SagaId)
    requires AllClear(w) && s in w.t.sagas && Callers.Finished(w, z, s)
    ensures AllClear(z)
  {
    forall x | x in z.t.sagas ensures Clear(z, x) { assert Clear(w, x); }
  }

  /** One caller less, whatever it was doing. */
  lemma ClearOne(w: World, s: SagaId) returns (z: World)
    requires Sane(w) && AllClear(w) && Unmarking(w) && s in w.sync
    ensures Reaches(w, z) && AllClear(z) && Unmarking(z) && z.sync == w.sync - {s}
  {
    assert Decisions.CallerKnows(w, s, w.sync[s]);
    assert Clear(w, s);
    if w.sync[s].SyncFailingSaga? {
      z := WriteMarked(w, s);
      FinishedKeepsClear(w, z, s);
    } else if w.sync[s].SyncFailingSubscription? {
      z := DropCaller(w, s);
    } else {
      z := Callers.HopeFinishes(w, s);
      FinishedKeepsClear(w, z, s);
    }
  }

  lemma WriteMarked(w: World, s: SagaId) returns (z: World)
    requires s in w.sync && s in w.t.sagas && w.sync[s].SyncFailingSaga?
    ensures Reaches(w, z) && Callers.Finished(w, z, s)
  {
    Step(w, Sync(SyncWrite(s)));
    z := Apply(w, Sync(SyncWrite(s)));
  }

  lemma DropCaller(w: World, s: SagaId) returns (z: World)
    requires AllClear(w) && Unmarking(w) && s in w.sync && s in w.t.sagas && w.sync[s].SyncFailingSubscription?
    requires Compensated(w.t.sagas[s].state)
    ensures Reaches(w, z) && AllClear(z) && Unmarking(z) && z.sync == w.sync - {s}
  {
    Step(w, Sync(SyncAbort(s)));
    z := Apply(w, Sync(SyncAbort(s)));
    assert z.t == w.t && z.ids == w.ids && z.server == w.server && z.consumer == w.consumer && z.sweeper == w.sweeper;
    forall x | x in z.t.sagas ensures Clear(z, x) { assert Clear(w, x); }
  }

  lemma {:induction false} ClearAll(w: World) returns (z: World)
    requires Sane(w) && AllClear(w) && Unmarking(w)
    ensures Reaches(w, z) && Sane(z) && AllClear(z) && Unmarking(z) && z.sync == map[]
    decreases |w.sync|
  {
    if w.sync == map[] {
      Stay(w);
      z := w;
    } else {
      var s :| s in w.sync;
      var m := ClearOne(w, s);
      ReachesSane(w, m);
      SmallerMap(w.sync, s);
      z := ClearAll(m);
      Then(w, m, z);
    }
  }

  /** ... after which only broker sagas wait and every compensation has its row. */
  lemma ClearedIsMendable(w: World)
    requires Sane(w) && AllClear(w) && Unmarking(w) && w.sync == map[]
    ensures Recovery.MendableBut(w.t, {})
  {
    forall s | s in w.t.sagas ensures !Limits.Abandoned(w, s) && !Limits.Orphaned(w, s) { assert Clear(w, s); }
    AnsweredIsMendable(w);
  }

  /** Any message may be lost. */
  lemma {:induction false} LoseCommands(w: World) returns (z: World)
    ensures Reaches(w, z) && z == w.(commands := [])
    decreases |w.commands|
  {
    if w.commands == [] {
      Stay(w);
      z := w;
    } else {
      Step(w, Other(LoseCommand(0)));
      var m := Apply(w, Other(LoseCommand(0)));
      z := LoseCommands(m);
      Then(w, m, z);
    }
  }

  lemma {:induction false} LoseReplies(w: World) returns (z: World)
    ensures Reaches(w, z) && z == w.(replies := [], audit := z.audit)
    decreases |w.replies|
  {
    if w.replies == [] {
      Stay(w);
      z := w;
    } else {
      Step(w, Other(LoseReply(0)));
      var m := Apply(w, Other(LoseReply(0)));
      z := LoseReplies(m);
      Then(w, m, z);
    }
  }

  /** One round in which every mail goes out. */
  lemma CheerfulRound(w: World, b: nat) returns (m: World)
    requires Idle(w) && Recovery.MendableBut(w.t, {}) && w.replies == []
    ensures Reaches(w, m) && Idle(m) && Recovery.MendableBut(m.t, {}) && m.replies == []
    ensures Recovery.Advances(w.t, m.t) && |StaleSagas(m.t, b)| <= Recovery.Remaining(|StaleSagas(w.t, b)|, BATCH, 1)
  {
    var ids := BatchExists(w.t, b, [], StaleSagas(w.t, b));
    var quiet := RoundOf(w, b, ids, N.Env(w.dedup, [], [], [], [], []));
    var mails := |Recovery.Drained(w.t, quiet).1|;
    var e := N.Env(w.dedup, [], seq(mails, _ => true), [], [], []);
    var round := RoundOf(w, b, ids, e);
    assert Recovery.Drained(w.t, round) == Recovery.Drained(w.t, quiet);
    m := RoundIsRun(w, b, ids, e);
    Recovery.CheerfulIsGentle(w.t, round);
    ShrinkByBatch(w, m, round, b);
  }

  lemma {:induction false} CheerfulFinish(w: World, b: nat, n: nat) returns (z: World)
    requires Idle(w) && Recovery.MendableBut(w.t, {}) && w.replies == [] && |StaleSagas(w.t, b)| <= BATCH * n
    ensures Reaches(w, z) && StaleSagas(z.t, b) == {} && Recovery.Advances(w.t, z.t)
    decreases n
  {
    if n == 0 {
      Stay(w);
      z := w;
    } else {
      var m := CheerfulRound(w, b);
      z := CheerfulFinish(m, b, n - 1);
      Then(w, m, z);
      Recovery.AdvancesTransitive(w.t, m.t, z.t);
    }
  }

  lemma FinishCleared(w: World) returns (z: World)
    requires Sane(w) && Recovery.MendableBut(w.t, {})
    ensures Reaches(w, z) && AllFinished(z.t)
  {
    var m := Interrupt(w);
    var n := LoseReplies(m);
    Then(w, m, n);
    z := CheerfulFinish(n, w.now + 1, |StaleSagas(n.t, w.now + 1)|);
    Then(w, n, z);
    NothingStaleIsLeft(w, z);
  }

  lemma ClearFinishes(w: World) returns (z: World)
    requires Sane(w) && AllClear(w)
    ensures Reaches(w, z) && AllFinished(z.t)
  {
    var m := FinishMarks(w);
    var n := ClearAll(m);
    Then(w, m, n);
    ClearedIsMendable(n);
    z := FinishCleared(n);
    Then(w, n, z);
  }

  lemma UnclearNeverFinishes(w: World, s: SagaId, z: World)
    requires Sane(w) && s in w.t.sagas && !Clear(w, s) && Reaches(w, z)
    ensures !AllFinished(z.t)
  {
    var actions :| Run(w, actions, z);
    if Callers.Waits(w, s) {
      Callers.NoHopeIsDoomed(w, s);
      Callers.DoomedStays(w, actions, z, s);
    } else {
      Limits.OrphanStays(w, actions, z, s);
    }
  }

  /** Every saga of a reachable state can still be finished, over both transports,
      from the middle of any handlers and with subscriptions deleted, if and only if
      each waiting gRPC saga has hope from its caller and each compensating saga
      whose subscription is gone was marked before. Whatever else was lost or is
      halfway, there is a way out. */
  lemma AllCanFinishExactly(past: seq<Action>, w: World)
    requires Run(Init(), past, w)
    ensures (exists z :: Reaches(w, z) && AllFinished(z.t)) <==> AllClear(w)
  {
    InitIsSane(past, w);
    if AllClear(w) {
      var z := ClearFinishes(w);
    } else {
      var s :| s in w.t.sagas && !Clear(w, s);
      forall z | Reaches(w, z) ensures !AllFinished(z.t) { UnclearNeverFinishes(w, s, z); }
    }
  }
}
