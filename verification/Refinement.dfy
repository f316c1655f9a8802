/** The handlers as written refine the protocol: under any faults, each of them
    is a run of the state machine over which the theorems quantify. */
module Refinement {
  import opened Model
  import opened Stores
  import opened Protocol
  import R = ReplyConsumers
  import S = Sweepers
  import L = Relays
  import N = Notifiers
  import O = Orchestrators

  ghost predicate Reaches(w: World, z: World) { exists actions :: Run(w, actions, z) }

  lemma Stay(w: World)
    ensures Reaches(w, w)
  {
    assert Run(w, [], w);
  }

  lemma Step(w: World, a: Action)
    requires Enabled(w, a)
    ensures Reaches(w, Apply(w, a))
  {
    OneStepRun(w, a);
  }

  lemma Then(w: World, m: World, z: World)
    requires Reaches(w, m) && Reaches(m, z)
    ensures Reaches(w, z)
  {
    var first :| Run(w, first, m);
    var second :| Run(m, second, z);
    RunAppend(w, first, m, second, z);
  }

  // ------------------------------------------------------------- the reply consumer

  predicate Holding(pc: ReplyPc, r: Reply) { !pc.ReplyIdle? && pc.r == r }

  /** Only the tables, the consumer and the history moved. */
  ghost predicate ConsumerMoved(w: World, z: World, t: Tables) {
    z == w.(t := t, consumer := z.consumer, audit := z.audit)
  }

  /** One write of the consumer under one fault. */
  lemma WriteUnder(w: World, fault: Fault) returns (z: World)
    requires EnabledConsumer(w, Write)
    ensures Reaches(w, z) && z == if fault.FailsClean? then w else ApplyConsumer(w, Write)
  {
    if fault.FailsClean? { Stay(w); z := w; } else { Step(w, Consumer(Write)); z := Apply(w, Consumer(Write)); }
  }

  lemma LoadStep(w: World, r: Reply) returns (z: World)
    requires w.consumer == Loading(r)
    ensures Reaches(w, z) && z == w.(consumer := z.consumer)
    ensures z.consumer == if r.sagaId in w.t.sagas && Acts(r, w.t.sagas[r.sagaId].state)
                          then Deciding(r, w.t.sagas[r.sagaId]) else Acking(r)
  {
    Step(w, Consumer(Load));
    z := Apply(w, Consumer(Load));
  }

  lemma CompensateRun(w: World, db: Db, r: Reply, saga: Saga) returns (z: World)
    requires w.consumer == Deciding(r, saga) && r.status.NotSent? && r.sagaId in w.t.sagas && db.t == w.t && db.now == w.now
    ensures Reaches(w, z) && Holding(z.consumer, r)
    ensures var (db2, ok2) := db.Exec(UpdateState(db.t, r.sagaId, Compensating, Some(FAILED_REASON), db.now));
            var (db3, ok3) := if ok2 then db2.Exec(MarkFailed(db2.t, saga.sub)) else (db2, false);
            var (db4, ok4) := if ok3 then db3.Exec(UpdateState(db3.t, r.sagaId, Failed, Some(FAILED_REASON), db3.now)) else (db3, false);
            ConsumerMoved(w, z, db4.t) && (ok4 ==> z.consumer == Acking(r))
  {
    var (db2, ok2) := db.Exec(UpdateState(db.t, r.sagaId, Compensating, Some(FAILED_REASON), db.now));
    var w2 := WriteUnder(w, db.Next());
    z := w2;
    if ok2 {
      assert w2.consumer == FailingSubscription(r, saga.sub) && w2.t == db2.t;
      if saga.sub in w2.t.subs {
        var (db3, ok3) := db2.Exec(MarkFailed(db2.t, saga.sub));
        var w3 := WriteUnder(w2, db2.Next());
        Then(w, w2, w3);
        z := w3;
        if ok3 {
          assert w3.consumer == FailingSaga(r) && w3.t == db3.t;
          z := WriteUnder(w3, db3.Next());
          Then(w, w3, z);
        }
      }
    }
  }

  /** HandleReply under any faults is a run that ends ready to ack when it
      succeeded, and still holding the reply in any case. */
  lemma HandleIsRun(w: World, faults: seq<Fault>, r: Reply) returns (z: World)
    requires w.consumer == Loading(r)
    ensures var (db, ok) := R.Handle(Db(w.t, faults, w.now), r);
            Reaches(w, z) && Holding(z.consumer, r) && ConsumerMoved(w, z, db.t) && (ok ==> z.consumer == Acking(r))
  {
    var db := Db(w.t, faults, w.now);
    var (db1, loaded) := db.Query();
    if !loaded {
      Stay(w);
      z := w;
    } else {
      var w1 := LoadStep(w, r);
      if w1.consumer.Acking? {
        z := w1;
      } else if r.status.Sent? {
        z := WriteUnder(w1, db1.Next());
        Then(w, w1, z);
      } else {
        z := CompensateRun(w1, db1, r, w.t.sagas[r.sagaId]);
        Then(w, w1, z);
      }
    }
  }

  /** From wherever an attempt stopped, the next one starts over. */
  lemma Reload(w: World, r: Reply) returns (z: World)
    requires Holding(w.consumer, r)
    ensures Reaches(w, z) && z == w.(consumer := Loading(r))
  {
    if w.consumer.Acking? {
      var m := Apply(w, Consumer(CrashConsumer));
      Step(w, Consumer(CrashConsumer));
      assert m.replies == [r] + w.replies && m.replies[1..] == w.replies;
      Step(m, Consumer(TakeReply));
      z := Apply(m, Consumer(TakeReply));
      Then(w, m, z);
    } else {
      Step(w, Consumer(RetryReply));
      z := Apply(w, Consumer(RetryReply));
    }
  }

  /** ... and so is handleWithRetry, with all of its attempts. */
  lemma {:induction false} RetryIsRun(w: World, faults: seq<Fault>, r: Reply, left: nat, canceledAfter: nat) returns (z: World)
    requires w.consumer == Loading(r)
    ensures var (db, ok) := R.Retry(Db(w.t, faults, w.now), Some(r), left, canceledAfter);
            Reaches(w, z) && Holding(z.consumer, r) && ConsumerMoved(w, z, db.t) && (ok ==> z.consumer == Acking(r))
    decreases left
  {
    if left == 0 {
      Stay(w);
      z := w;
    } else {
      z := HandleIsRun(w, faults, r);
      var (db1, ok) := R.Handle(Db(w.t, faults, w.now), r);
      if !ok && left > 1 && canceledAfter > 1 {
        var m := Reload(z, r);
        Then(w, z, m);
        HandleKeepsClock(Db(w.t, faults, w.now), r);
        z := RetryIsRun(m, db1.faults, r, left - 1, canceledAfter - 1);
        Then(w, m, z);
      }
    }
  }

  lemma HandleKeepsClock(db: Db, r: Reply)
    ensures R.Handle(db, r).0.now == db.now
  {}

  // -------------------------------------------------------------------- the sweeper

  /** One snapshot entry under any faults. */
  lemma SweepOneIsRun(w: World, faults: seq<Fault>) returns (z: World)
    requires w.sweeper.SweepNext? && w.sweeper.todo != [] && w.sweeper.todo[0] in w.sweeper.snapshot
    requires w.sweeper.todo[0] in w.t.sagas
    ensures var s := w.sweeper.todo[0];
            var db := S.SweepOne(Db(w.t, faults, w.now), s, w.sweeper.snapshot[s]);
            && Reaches(w, z) && db.now == w.now
            && z == w.(t := db.t, sweeper := SweepNext(w.sweeper.todo[1..], w.sweeper.snapshot), audit := z.audit)
  {
    var s, saga := w.sweeper.todo[0], w.sweeper.snapshot[w.sweeper.todo[0]];
    var db := Db(w.t, faults, w.now);
    var applied := !db.Next().FailsClean? && (saga.state.Compensating? ==> saga.sub in w.t.subs);
    Step(w, Sweeper(SweepHead(applied)));
    z := Apply(w, Sweeper(SweepHead(applied)));
    if saga.state.Compensating? && applied {
      var (db1, marked) := db.Exec(MarkFailed(db.t, saga.sub));
      assert z.t == db1.t && z.sweeper == SweepFailing(s, w.sweeper.todo[1..], w.sweeper.snapshot);
      var written := marked && !db1.Next().FailsClean?;
      Step(z, Sweeper(SweepFail(written)));
      var m := z;
      z := Apply(m, Sweeper(SweepFail(written)));
      Then(w, m, z);
    }
  }

  lemma SweepOneKeepsSagas(db: Db, id: SagaId, saga: Saga)
    ensures S.SweepOne(db, id, saga).t.sagas.Keys == db.t.sagas.Keys
  {}

  lemma {:induction false} SweepListIsRun(w: World, faults: seq<Fault>, batch: S.Batch) returns (z: World)
    requires w.sweeper.SweepNext? && |w.sweeper.todo| == |batch|
    requires forall i | 0 <= i < |batch| ::
               && w.sweeper.todo[i] == batch[i].0 && batch[i].0 in w.sweeper.snapshot
               && w.sweeper.snapshot[batch[i].0] == batch[i].1 && batch[i].0 in w.t.sagas
    ensures Reaches(w, z)
    ensures z == w.(t := S.SweepList(Db(w.t, faults, w.now), batch).t, sweeper := SweepNext([], w.sweeper.snapshot), audit := z.audit)
    decreases |batch|
  {
    if batch == [] {
      Stay(w);
      z := w;
    } else {
      var m := SweepOneIsRun(w, faults);
      SweepOneKeepsSagas(Db(w.t, faults, w.now), batch[0].0, batch[0].1);
      var db1 := S.SweepOne(Db(w.t, faults, w.now), batch[0].0, batch[0].1);
      z := SweepListIsRun(m, db1.faults, batch[1..]);
      Then(w, m, z);
    }
  }

  /** A whole pass of Sweep, from its snapshot to its end. */
  lemma SweepIsRun(w: World, faults: seq<Fault>, before: nat, ids: seq<SagaId>) returns (z: World)
    requires w.sweeper.SweepIdle? && IsResumable(w.t, before, ids)
    ensures Reaches(w, z)
    ensures z == w.(t := S.SweepList(Db(w.t, faults, w.now), S.Snapshot(w.t, ids)).t, audit := z.audit)
  {
    Step(w, Sweeper(FindStale(before, ids)));
    var m := Apply(w, Sweeper(FindStale(before, ids)));
    var n := SweepListIsRun(m, faults, S.Snapshot(w.t, ids));
    Then(w, m, n);
    Step(n, Sweeper(StopSweep));
    z := Apply(n, Sweeper(StopSweep));
    Then(w, n, z);
  }

  // ---------------------------------------------------------------------- the relay

  /** One row: published or not, stamped or not. */
  lemma RowIsRun(w: World, db: Db, broker: L.Broker) returns (z: World)
    requires w.relay.RelayNext? && w.relay.batch != [] && w.relay.batch[0] in w.t.outbox
    requires db.t == w.t && db.now == w.now && broker.log == w.commands
    ensures var (db1, broker1, ok) := L.PublishRow(db, broker, w.relay.batch[0]);
            && Reaches(w, z) && db1.now == db.now
            && z == w.(t := db1.t, commands := broker1.log, published := z.published,
                       relay := if ok then RelayNext(w.relay.batch[1..]) else RelayIdle)
  {
    var row, fault := w.relay.batch[0], Head(broker.faults);
    var reached := !fault.FailsClean?;
    Step(w, Relay(Publish(reached)));
    z := Apply(w, Relay(Publish(reached)));
    if reached {
      var m := z;
      var a := if fault.Works? then MarkRow(!db.Next().FailsClean?) else StopRelay;
      Step(m, Relay(a));
      z := Apply(m, Relay(a));
      Then(w, m, z);
    }
  }

  lemma {:induction false} RowsAreRun(w: World, db: Db, broker: L.Broker, rows: seq<nat>) returns (z: World)
    requires w.relay == RelayNext(rows) && forall i | 0 <= i < |rows| :: rows[i] in w.t.outbox
    requires db.t == w.t && db.now == w.now && broker.log == w.commands
    ensures var (db1, broker1) := L.DrainRows(db, broker, rows);
            Reaches(w, z) && z == w.(t := db1.t, commands := broker1.log, published := z.published, relay := RelayIdle)
    decreases |rows|
  {
    if rows == [] {
      Step(w, Relay(StopRelay));
      z := Apply(w, Relay(StopRelay));
    } else {
      z := RowIsRun(w, db, broker);
      L.PublishRowEffect(db, broker, rows[0]);
      var (db1, broker1, ok) := L.PublishRow(db, broker, rows[0]);
      if ok {
        var m := z;
        z := RowsAreRun(m, db1, broker1, rows[1..]);
        Then(w, m, z);
      }
    }
  }

  /** A whole tick of the relay, with failing statements, failing publishes and
      publishes that reach the broker but are reported as failed. */
  lemma DrainIsRun(w: World, faults: seq<Fault>, brokerFaults: seq<Fault>) returns (z: World)
    requires w.relay.RelayIdle?
    ensures var (db, broker) := L.Drain(Db(w.t, faults, w.now), L.Broker(w.commands, brokerFaults), BATCH);
            Reaches(w, z) && z == w.(t := db.t, commands := broker.log, published := z.published)
  {
    var (db, ok) := Db(w.t, faults, w.now).Query();
    if !ok {
      Stay(w);
      z := w;
    } else {
      Step(w, Relay(Fetch));
      var m := Apply(w, Relay(Fetch));
      z := RowsAreRun(m, db, L.Broker(w.commands, brokerFaults), FetchUnpublished(w.t, BATCH));
      Then(w, m, z);
    }
  }

  // ------------------------------------------------------------------- the notifier

  /** The world and the notifier's environment agree. */
  predicate Agree(w: World, e: N.Env) { e.dedup == w.dedup && e.replies == w.replies }

  /** Only the notifier's own state moved; mails accepted were counted. */
  ghost predicate NotifierMoved(w: World, z: World, id: MessageId, mails: nat) {
    && z == w.(notifier := z.notifier, dedup := z.dedup, replies := z.replies, mail := z.mail, audit := z.audit)
    && z.mail.sends == w.mail.sends[id := w.mail.sends[id] + mails]
  }

  lemma MarkIsRun(w: World, e: N.Env, d: Delivery, sent: bool) returns (z: World)
    requires w.notifier == AfterDispatch(d, sent) && Agree(w, e)
    ensures Reaches(w, z) && z.notifier == Settling(d) && NotifierMoved(w, z, d.messageId, 0)
    ensures Agree(z, if d.messageId.NoId? then e else N.MarkKey(e, d.messageId))
  {
    if d.messageId.NoId? {
      Stay(w);
      z := w;
    } else {
      var a := MarkProcessed(!Head(e.redis).FailsClean?);
      Step(w, Notifier(a));
      z := Apply(w, Notifier(a));
    }
  }

  lemma SendStep(w: World, ok: bool) returns (z: World)
    requires w.notifier.Sending? && Sendable(w.notifier.d)
    ensures Reaches(w, z) && NotifierMoved(w, z, w.notifier.d.messageId, if ok then 1 else 0)
    ensures z.dedup == w.dedup && z.replies == w.replies
    ensures z.notifier == if IsSagaCommand(w.notifier.d) then Replying(w.notifier.d, ok)
                          else if ok then AfterDispatch(w.notifier.d, true) else Settling(w.notifier.d)
  {
    Step(w, Notifier(Send(ok)));
    z := Apply(w, Notifier(Send(ok)));
  }

  lemma ReplyStep(w: World, e: N.Env) returns (z: World)
    requires w.notifier.Replying? && IsSagaCommand(w.notifier.d) && Agree(w, e)
    ensures var (d, sent) := (w.notifier.d, w.notifier.sent);
            var (e1, reported) := N.PublishReply(e, Reply(d.body.sagaId, if sent then Sent else NotSent));
            && Reaches(w, z) && NotifierMoved(w, z, d.messageId, 0) && Agree(z, e1)
            && z.notifier == if sent || reported then AfterDispatch(d, sent) else Settling(d)
  {
    var fault := Head(e.broker);
    Step(w, Notifier(PublishReply(!fault.FailsClean?, fault.Works?)));
    z := Apply(w, Notifier(PublishReply(!fault.FailsClean?, fault.Works?)));
  }

  /** dispatch: the retries are one Send of the machine. */
  lemma DispatchIsRun(w: World, e: N.Env, d: Delivery, patience: nat) returns (z: World)
    requires w.notifier == Sending(d) && Agree(w, e)
    ensures var (e1, ok) := N.Dispatch(e, d, patience);
            && |e.accepted| <= |e1.accepted|
            && Reaches(w, z) && NotifierMoved(w, z, d.messageId, |e1.accepted| - |e.accepted|) && Agree(z, e1)
            && (if ok then exists sent :: z.notifier == AfterDispatch(d, sent) else z.notifier == Settling(d))
  {
    N.RetriesAcceptOnce(e, d, N.MAX_ATTEMPTS, patience);
    if !Sendable(d) {
      Step(w, Notifier(Reject));
      z := Apply(w, Notifier(Reject));
    } else {
      var (e1, sent) := if d.key.RoutingConfirm? then N.Attempts(e, d, N.MAX_ATTEMPTS, patience) else N.Attempt(e, d);
      z := SendStep(w, sent);
      if IsSagaCommand(d) {
        var m := z;
        z := ReplyStep(m, e1);
        Then(w, m, z);
      }
    }
  }

  /** HandleDelivery under any faults of Redis, SMTP and the reply publisher is
      a run from the taken message to its settlement. */
  lemma DeliveryIsRun(w: World, e: N.Env, d: Delivery, patience: nat) returns (z: World)
    requires w.notifier == FirstPc(d) && Agree(w, e)
    ensures var (e1, _) := N.Handle(e, d, patience);
            && |e.accepted| <= |e1.accepted|
            && Reaches(w, z) && NotifierMoved(w, z, d.messageId, |e1.accepted| - |e.accepted|)
            && Agree(z, e1) && z.notifier == Settling(d)
  {
    var (e1, read, seen) := if d.messageId.NoId? then (e, true, false) else N.ReadKey(e, d.messageId);
    var m := w;
    Stay(w);
    if !d.messageId.NoId? {
      Step(w, Notifier(ReadDedup(read)));
      m := Apply(w, Notifier(ReadDedup(read)));
    }
    if read && seen {
      var a := ReportAgain(!Head(e1.broker).FailsClean?);
      Step(m, Notifier(a));
      z := Apply(m, Notifier(a));
      Then(w, m, z);
    } else {
      z := SendingIsRun(m, e1, d, patience);
      Then(w, m, z);
    }
  }

  /** From the decision to send: dispatch, then the mark of an acked delivery. */
  lemma SendingIsRun(w: World, e: N.Env, d: Delivery, patience: nat) returns (z: World)
    requires w.notifier == Sending(d) && Agree(w, e)
    ensures var (e1, ok) := N.Dispatch(e, d, patience);
            && |e.accepted| <= |e1.accepted|
            && Reaches(w, z) && NotifierMoved(w, z, d.messageId, |e1.accepted| - |e.accepted|) && z.notifier == Settling(d)
            && Agree(z, if ok && !d.messageId.NoId? then N.MarkKey(e1, d.messageId) else e1)
  {
    z := DispatchIsRun(w, e, d, patience);
    var (e1, ok) := N.Dispatch(e, d, patience);
    if ok {
      var n := z;
      var sent :| n.notifier == AfterDispatch(d, sent);
      z := MarkIsRun(n, e1, d, sent);
      Then(w, n, z);
    }
  }

  // -------------------------------------------------------------------- step T1

  /** RunT1 under any faults is either nothing or the machine's one step, and the
      step whenever it reports success. */
  lemma StartIsRun(w: World, faults: seq<Fault>, a: Attempt, reactivate: bool, broker: bool) returns (z: World)
    requires FreshAttempt(w, a, reactivate)
    ensures var (db, ok) := O.Start(Db(w.t, faults, w.now), a, reactivate, broker);
            && Reaches(w, z) && z.t == db.t && (ok ==> z != w)
            && (z == w || (EnabledUser(w, Subscribe(a, reactivate, broker)) && z == ApplySubscribe(w, a, reactivate, broker)))
  {
    var (db, ok) := O.Start(Db(w.t, faults, w.now), a, reactivate, broker);
    O.AllOrNothing(Db(w.t, faults, w.now), a, reactivate, broker);
    if db.t == w.t && !ok {
      Stay(w);
      z := w;
    } else {
      Step(w, User(Subscribe(a, reactivate, broker)));
      z := Apply(w, User(Subscribe(a, reactivate, broker)));
    }
  }

  // ------------------------------------------------------------- the inline gRPC path

  /** Only the caller, the server and what they log moved. */
  ghost predicate CallMoved(w: World, z: World, id: MessageId, mails: nat) {
    && z == w.(sync := z.sync, server := z.server, dedup := z.dedup, mail := z.mail)
    && z.mail.sends == w.mail.sends[id := w.mail.sends[id] + mails]
  }

  /** The server's handler up to its answer. */
  lemma ServeIsRun(w: World, e: N.Env, a: Attempt, complete: bool) returns (z: World)
    requires a.saga in w.server && w.server[a.saga].ServerReading?
    requires a.saga in w.ids.tokenOf && w.ids.tokenOf[a.saga] == a.token && Agree(w, e)
    ensures var (e1, ok) := N.SendConfirmation(e, Command(a), complete);
            && |e.accepted| <= |e1.accepted|
            && Reaches(w, z) && CallMoved(w, z, ConfirmMessage(a.token), |e1.accepted| - |e.accepted|)
            && Agree(z, e1) && z.sync == w.sync && (ok ==> a.saga in z.server && z.server[a.saga].ServerDone?)
  {
    var s := a.saga;
    if !complete {
      Stay(w);
      z := w;
    } else {
      var (e1, read, seen) := N.ReadKey(e, ConfirmMessage(a.token));
      Step(w, Sync(ServerRead(s, read)));
      z := Apply(w, Sync(ServerRead(s, read)));
      if !(read && seen) {
        var (e2, ok) := N.Attempt(e1, Command(a));
        var m := z;
        Step(m, Sync(ServerSend(s, ok)));
        z := Apply(m, Sync(ServerSend(s, ok)));
        Then(w, m, z);
        if ok {
          var n, marked := z, !Head(e2.redis).FailsClean?;
          Step(n, Sync(ServerMark(s, marked)));
          z := Apply(n, Sync(ServerMark(s, marked)));
          Then(w, n, z);
        }
      }
    }
  }

  /** ... and the caller's view of it, over a network that may lose either way. */
  lemma CallIsRun(w: World, e: N.Env, network: Fault, a: Attempt) returns (z: World)
    requires a.saga in w.sync && w.sync[a.saga].Calling? && a.saga in w.server && w.server[a.saga].ServerReading?
    requires a.saga in w.ids.tokenOf && w.ids.tokenOf[a.saga] == a.token && Agree(w, e)
    ensures var (e1, sent) := O.Call(e, network, a);
            && |e.accepted| <= |e1.accepted|
            && Reaches(w, z) && CallMoved(w, z, ConfirmMessage(a.token), |e1.accepted| - |e.accepted|) && Agree(z, e1)
            && z.sync == w.sync[a.saga := if sent then Completing else SyncCompensating]
  {
    var (e1, sent) := O.Call(e, network, a);
    var m := w;
    Stay(w);
    if !network.FailsClean? { m := ServeIsRun(w, e, a, a.email != "" && a.repo != "" && a.url != ""); }
    Step(m, Sync(SyncReturn(a.saga, sent)));
    z := Apply(m, Sync(SyncReturn(a.saga, sent)));
    Then(w, m, z);
  }

  lemma SyncWriteUnder(w: World, s: SagaId, fault: Fault) returns (z: World)
    requires EnabledSync(w, SyncWrite(s))
    ensures Reaches(w, z) && z == if fault.FailsClean? then w else ApplySync(w, SyncWrite(s))
  {
    if fault.FailsClean? { Stay(w); z := w; } else { Step(w, Sync(SyncWrite(s))); z := Apply(w, Sync(SyncWrite(s))); }
  }

  lemma CompleteIsRun(w: World, db: Db, s: SagaId) returns (z: World)
    requires s in w.sync && w.sync[s].Completing? && s in w.t.sagas && db.t == w.t && db.now == w.now
    ensures Reaches(w, z) && z == w.(t := O.Complete(db, s).0.t, sync := z.sync)
  {
    z := SyncWriteUnder(w, s, db.Next());
  }

  lemma CompensateIsRun(w: World, db: Db, s: SagaId, sub: SubId) returns (z: World)
    requires s in w.sync && w.sync[s].SyncCompensating? && s in w.t.sagas && w.t.sagas[s].sub == sub
    requires db.t == w.t && db.now == w.now
    ensures Reaches(w, z) && z == w.(t := O.Compensate(db, s, sub).0.t, sync := z.sync, audit := z.audit)
  {
    var (db1, ok1) := db.Exec(UpdateState(db.t, s, Compensating, Some(GRPC_REASON), db.now));
    z := SyncWriteUnder(w, s, db.Next());
    if ok1 && sub in z.t.subs {
      var m := z;
      var (db2, ok2) := db1.Exec(MarkFailed(db1.t, sub));
      z := SyncWriteUnder(m, s, db1.Next());
      Then(w, m, z);
      if ok2 {
        var n := z;
        z := SyncWriteUnder(n, s, db2.Next());
        Then(w, n, z);
      }
    }
  }

  /** Only what the inline path touches moved; the mails accepted were counted. */
  ghost predicate InlineMoved(w: World, z: World, id: MessageId, mails: nat) {
    && z == w.(t := z.t, sync := z.sync, server := z.server, dedup := z.dedup, ids := z.ids, mail := z.mail, audit := z.audit)
    && z.mail.sends == w.mail.sends[id := w.mail.sends[id] + mails]
  }

  /** The whole inline path under any faults of the database, the network, Redis
      and SMTP. */
  lemma StartSyncIsRun(w: World, faults: seq<Fault>, e: N.Env, network: Fault, a: Attempt, reactivate: bool) returns (z: World)
    requires FreshAttempt(w, a, reactivate) && Agree(w, e)
    ensures var (db, e1, _) := O.StartSync(Db(w.t, faults, w.now), e, network, a, reactivate);
            && Reaches(w, z) && z.t == db.t && Agree(z, e1) && |e.accepted| <= |e1.accepted|
            && InlineMoved(w, z, ConfirmMessage(a.token), |e1.accepted| - |e.accepted|)
  {
    var (db1, created) := O.Start(Db(w.t, faults, w.now), a, reactivate, false);
    z := StartIsRun(w, faults, a, reactivate, false);
    if created {
      var m := z;
      T1Calls(w, a, reactivate, m);
      StartKeepsClock(Db(w.t, faults, w.now), a, reactivate, false);
      z := DispatchIsSteps(m, db1, e, network, a);
      Then(w, m, z);
    } else {
      StartMoves(w, a, reactivate, z);
    }
  }

  /** What T1 over gRPC leaves for the caller. */
  lemma T1Calls(w: World, a: Attempt, reactivate: bool, z: World)
    requires EnabledUser(w, Subscribe(a, reactivate, false)) && z == ApplySubscribe(w, a, reactivate, false)
    ensures a.saga in z.sync && z.sync[a.saga].Calling? && a.saga in z.server && z.server[a.saga].ServerReading?
    ensures a.saga in z.ids.tokenOf && z.ids.tokenOf[a.saga] == a.token
    ensures a.saga in z.t.sagas && z.t.sagas[a.saga].sub == a.sub
    ensures InlineMoved(w, z, ConfirmMessage(a.token), 0) && z.dedup == w.dedup && z.replies == w.replies && z.now == w.now
  {
    T1Saga(w.t, a, reactivate, w.now);
  }

  lemma StartMoves(w: World, a: Attempt, reactivate: bool, z: World)
    requires z == w || (EnabledUser(w, Subscribe(a, reactivate, false)) && z == ApplySubscribe(w, a, reactivate, false))
    ensures InlineMoved(w, z, ConfirmMessage(a.token), 0) && z.dedup == w.dedup && z.replies == w.replies
  {
    if z != w { T1Calls(w, a, reactivate, z); }
  }

  /** dispatchSync after T1. */
  lemma DispatchIsSteps(w: World, db: Db, e: N.Env, network: Fault, a: Attempt) returns (z: World)
    requires a.saga in w.sync && w.sync[a.saga].Calling? && a.saga in w.server && w.server[a.saga].ServerReading?
    requires a.saga in w.ids.tokenOf && w.ids.tokenOf[a.saga] == a.token && Agree(w, e)
    requires a.saga in w.t.sagas && w.t.sagas[a.saga].sub == a.sub && db.t == w.t && db.now == w.now
    ensures var (e1, sent) := O.Call(e, network, a);
            && Reaches(w, z) && Agree(z, e1) && |e.accepted| <= |e1.accepted|
            && z.t == (if sent then O.Complete(db, a.saga) else O.Compensate(db, a.saga, a.sub)).0.t
            && InlineMoved(w, z, ConfirmMessage(a.token), |e1.accepted| - |e.accepted|)
  {
    var n := CallIsRun(w, e, network, a);
    if O.Call(e, network, a).1 {
      z := CompleteIsRun(n, db, a.saga);
    } else {
      z := CompensateIsRun(n, db, a.saga, a.sub);
    }
    Then(w, n, z);
  }

  lemma StartKeepsClock(db: Db, a: Attempt, reactivate: bool, broker: bool)
    ensures O.Start(db, a, reactivate, broker).0.now == db.now
  {}

  lemma T1Saga(t: Tables, a: Attempt, reactivate: bool, now: nat)
    requires T1(t, a, reactivate, false, now).Some?
    ensures var u := T1(t, a, reactivate, false, now).value;
            a.saga in u.sagas && u.sagas[a.saga].sub == a.sub
  {}
}
