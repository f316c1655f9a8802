/** The two confirmation transports: equal results for equal send outcomes, and
    no crosstalk between their sagas. */
module Transports {
  import opened Model
  import opened Stores
  import opened Protocol
  import N = Notifiers
  import R = ReplyConsumers
  import O = Orchestrators
  import Relays
  import Decisions

  /** One failure-free trip over the broker: T1, the relay, the notifier and the
      reply consumer, each on the message the one before produced. */
  function BrokerTrip(t: Tables, a: Attempt, reactivate: bool, e: N.Env, now: nat): (Tables, N.Env)
    requires T1(t, a, reactivate, true, now).Some?
  {
    var t1 := T1(t, a, reactivate, true, now).value;
    var (db2, broker, _) := Relays.PublishRow(Db(t1, [], now), Relays.Broker([], []), a.row);
    var (e1, _) := N.Handle(e, broker.log[0], N.MAX_ATTEMPTS);
    if e1.replies == [] then (db2.t, e1)
    else (R.Clean(db2.t, e1.replies[|e1.replies| - 1], now).0, e1)
  }

  /** The same attempt served inline over gRPC. */
  function GrpcTrip(t: Tables, a: Attempt, reactivate: bool, e: N.Env, now: nat): (Tables, N.Env, bool) {
    var (db, e1, ok) := O.StartSync(Db(t, [], now), e, Works, a, reactivate);
    (db.t, e1, ok)
  }

  /** Equal but for the error text. */
  predicate SameSaga(s: Saga, z: Saga) { s.(lastError := None) == z.(lastError := None) }

  /** No fault lies ahead and this attempt was never processed. */
  predicate Calm(e: N.Env, a: Attempt) {
    e.redis == [] && e.broker == [] && ConfirmMessage(a.token) !in e.dedup
  }

  /** What either transport makes of the new attempt once the outcome is known. */
  function Outcome(t1: Tables, a: Attempt, sent: bool, err: string, now: nat): Tables
    requires a.saga in t1.sagas && a.sub in t1.subs
  {
    if sent then UpdateState(t1, a.saga, Completed, None, now).value
    else
      var t2 := MarkFailed(t1, a.sub).value;
      UpdateState(t2, a.saga, Failed, Some(err), now).value
  }

  lemma T1Rows(t: Tables, a: Attempt, reactivate: bool, broker: bool, now: nat)
    requires T1(t, a, reactivate, broker, now).Some?
    ensures var t1 := T1(t, a, reactivate, broker, now).value;
            && a.sub in t1.subs && t1.sagas == t.sagas[a.saga := NewSaga(a, now)]
            && t1.subs == UpsertSubscription(t, a, reactivate).value.subs
            && t1.outbox == (if broker then t.outbox[a.row := OutboxRow(a.saga, Command(a), None)] else t.outbox)
            && a.saga !in t.sagas
  {}

  lemma GrpcEndsIn(t: Tables, a: Attempt, reactivate: bool, e: N.Env, now: nat)
    requires T1(t, a, reactivate, false, now).Some? && Calm(e, a)
    requires a.email != "" && a.repo != "" && a.url != ""
    ensures a.saga in T1(t, a, reactivate, false, now).value.sagas && a.sub in T1(t, a, reactivate, false, now).value.subs
    ensures GrpcTrip(t, a, reactivate, e, now).2
    ensures GrpcTrip(t, a, reactivate, e, now).0 ==
            Outcome(T1(t, a, reactivate, false, now).value, a, N.Attempt(e, Command(a)).1, GRPC_REASON, now)
  {
    T1Rows(t, a, reactivate, false, now);
    O.AllOrNothing(Db(t, [], now), a, reactivate, false);
    var t1 := T1(t, a, reactivate, false, now).value;
    assert O.Start(Db(t, [], now), a, reactivate, false) == (Db(t1, [], now), true);
    assert N.SendConfirmation(e, Command(a), true).1 == N.Attempt(e, Command(a)).1;
    var failed := O.Compensate(Db(t1, [], now), a.saga, a.sub);
    assert failed.1 && failed.0.t.sagas == Outcome(t1, a, false, GRPC_REASON, now).sagas;
  }

  /** The notifier's reply to a fresh command names its outcome. */
  lemma NotifierReplies(a: Attempt, e: N.Env)
    requires Calm(e, a) && a.saga != ""
    ensures var sent := N.Attempts(e, Command(a), N.MAX_ATTEMPTS, N.MAX_ATTEMPTS).1;
            N.Handle(e, Command(a), N.MAX_ATTEMPTS).0.replies == e.replies + [Reply(a.saga, if sent then Sent else NotSent)]
  {
    N.RetriesAcceptOnce(e, Command(a), N.MAX_ATTEMPTS, N.MAX_ATTEMPTS);
  }

  /** ... and the reply consumer makes of it what the outcome says. */
  lemma ReplyEndsIn(t: Tables, a: Attempt, sent: bool, now: nat)
    requires a.saga in t.sagas && t.sagas[a.saga].state.SubscriptionCreated? && t.sagas[a.saga].sub == a.sub && a.sub in t.subs
    ensures R.Clean(t, Reply(a.saga, if sent then Sent else NotSent), now).0 == Outcome(t, a, sent, FAILED_REASON, now)
  {
    var r := Reply(a.saga, if sent then Sent else NotSent);
    R.CleanIsWhole(t, r, now);
    assert R.Clean(t, r, now).0.sagas == Outcome(t, a, sent, FAILED_REASON, now).sagas;
  }

  lemma BrokerEndsIn(t: Tables, a: Attempt, reactivate: bool, e: N.Env, now: nat)
    requires T1(t, a, reactivate, true, now).Some? && Calm(e, a) && a.saga != ""
    ensures var t1 := MarkPublished(T1(t, a, reactivate, true, now).value, a.row, now);
            && a.saga in t1.sagas && a.sub in t1.subs
            && BrokerTrip(t, a, reactivate, e, now).0 ==
               Outcome(t1, a, N.Attempts(e, Command(a), N.MAX_ATTEMPTS, N.MAX_ATTEMPTS).1, FAILED_REASON, now)
  {
    T1Rows(t, a, reactivate, true, now);
    var t1 := T1(t, a, reactivate, true, now).value;
    var t2 := MarkPublished(t1, a.row, now);
    var sent := N.Attempts(e, Command(a), N.MAX_ATTEMPTS, N.MAX_ATTEMPTS).1;
    NotifierReplies(a, e);
    ReplyEndsIn(t2, a, sent, now);
  }

  /** The mail server accepted the mail of the attempt once, or nothing. */
  predicate Mailed(before: seq<Delivery>, after: seq<Delivery>, a: Attempt, sent: bool) {
    var mail := Delivery(RoutingConfirm, ConfirmMessage(a.token), ConfirmationRequest(a.saga, a.email, a.url));
    after == if sent then before + [mail] else before
  }

  lemma BrokerMails(t: Tables, a: Attempt, reactivate: bool, e: N.Env, now: nat)
    requires T1(t, a, reactivate, true, now).Some? && Calm(e, a)
    ensures N.Attempts(e, Command(a), N.MAX_ATTEMPTS, N.MAX_ATTEMPTS).1 == N.GoesOut(e.smtp, 3)
    ensures Mailed(e.accepted, BrokerTrip(t, a, reactivate, e, now).1.accepted, a, N.GoesOut(e.smtp, 3))
  {
    T1Rows(t, a, reactivate, true, now);
    N.RetriesSendExactly(e, Command(a), N.MAX_ATTEMPTS);
    N.ConfirmationIsMailedExactly(e, Command(a), N.MAX_ATTEMPTS);
  }

  lemma GrpcMails(t: Tables, a: Attempt, reactivate: bool, g: N.Env, now: nat)
    requires T1(t, a, reactivate, false, now).Some? && Calm(g, a) && a.email != "" && a.repo != "" && a.url != ""
    ensures N.Attempt(g, Command(a)).1 == N.GoesOut(g.smtp, 1)
    ensures Mailed(g.accepted, GrpcTrip(t, a, reactivate, g, now).1.accepted, a, N.GoesOut(g.smtp, 1))
  {
    O.InlineExactly(Db(t, [], now), g, Works, a, reactivate);
    O.CallExactly(g, Works, a);
  }

  /** Transport equivalence: for the same send outcome both transports mail the same
      message to the same address, or none, and leave the same subscriptions, the
      same saga up to its error text, every other saga as it was; the gRPC one
      leaves no outbox row. */
  lemma TransportsAgree(t: Tables, a: Attempt, reactivate: bool, e: N.Env, g: N.Env, now: nat)
    requires T1(t, a, reactivate, true, now).Some? && T1(t, a, reactivate, false, now).Some?
    requires Calm(e, a) && Calm(g, a)
    requires a.saga != "" && a.email != "" && a.repo != "" && a.url != ""
    requires N.GoesOut(e.smtp, 3) == N.GoesOut(g.smtp, 1)
    ensures Mailed(e.accepted, BrokerTrip(t, a, reactivate, e, now).1.accepted, a, N.GoesOut(g.smtp, 1))
    ensures Mailed(g.accepted, GrpcTrip(t, a, reactivate, g, now).1.accepted, a, N.GoesOut(g.smtp, 1))
    ensures var b, c := BrokerTrip(t, a, reactivate, e, now).0, GrpcTrip(t, a, reactivate, g, now).0;
            && b.subs == c.subs
            && a.saga in b.sagas && a.saga in c.sagas && Terminal(b.sagas[a.saga].state)
            && SameSaga(b.sagas[a.saga], c.sagas[a.saga])
            && b.sagas.Keys == c.sagas.Keys
            && (forall s | s in t.sagas :: b.sagas[s] == c.sagas[s] == t.sagas[s])
            && c.outbox == t.outbox
  {
    BrokerMails(t, a, reactivate, e, now);
    GrpcMails(t, a, reactivate, g, now);
    BrokerEndsIn(t, a, reactivate, e, now);
    GrpcEndsIn(t, a, reactivate, g, now);
    T1Rows(t, a, reactivate, true, now);
    T1Rows(t, a, reactivate, false, now);
  }

  /** Isolation: in every execution no reply and no command, queued or being
      handled, and no outbox row names a saga created over gRPC. */
  lemma GrpcSagasAreIsolated(actions: seq<Action>, w: World, s: SagaId)
    requires Run(Init(), actions, w) && s in w.ids.grpc
    ensures forall i | 0 <= i < |w.replies| :: w.replies[i].sagaId != s
    ensures !w.consumer.ReplyIdle? ==> w.consumer.r.sagaId != s
    ensures forall r | r in w.t.outbox :: w.t.outbox[r].sagaId != s
    ensures forall i | 0 <= i < |w.commands| && IsSagaCommand(w.commands[i]) :: w.commands[i].body.sagaId != s
    ensures !w.notifier.NotifierIdle? && IsSagaCommand(w.notifier.d) ==> w.notifier.d.body.sagaId != s
  {
    Decisions.RunIsStable(Init(), actions, w);
    if !w.notifier.NotifierIdle? { assert Decisions.Owned(w, w.notifier.d); }
    forall i | 0 <= i < |w.commands| && IsSagaCommand(w.commands[i]) ensures w.commands[i].body.sagaId != s {
      assert Decisions.Owned(w, w.commands[i]);
    }
  }
}
