/** Step T1 in one transaction, and the synchronous gRPC path that drives the
    saga inline. */
module Orchestrators {
  import opened Model
  import opened Stores
  import opened Protocol
  import N = Notifiers

  // ---------------------------------------------------------------- transactions

  /** A statement inside a transaction sees and changes only the view; any error
      leads to the deferred rollback. */
  function InTx(db: Db, view: Option<Tables>, effect: Option<Tables>): (Db, Option<Tables>) {
    if view.None? then (db, None) else (db.Rest(), if db.Next().Works? then effect else None)
  }

  function CommitTx(db: Db, view: Option<Tables>): (Db, bool) {
    if view.None? then (db, false) else db.Exec(view)
  }

  /** Begin, create or reactivate, insert the saga, enqueue the command (broker
      only), commit; or stop and roll back at the first error. */
  function Start(db: Db, a: Attempt, reactivate: bool, broker: bool): (Db, bool) {
    var (db0, begun) := db.Query();
    if !begun then (db0, false) else
    var (db1, v1) := InTx(db0, Some(db0.t), UpsertSubscription(db0.t, a, reactivate));
    var (db2, v2) := InTx(db1, v1, if v1.Some? then InsertSaga(v1.value, a.saga, NewSaga(a, db.now)) else None);
    var (db3, v3) := if !broker then (db2, v2)
                     else InTx(db2, v2, if v2.Some? then Enqueue(v2.value, a.row, a.saga, Command(a)) else None);
    CommitTx(db3, v3)
  }

  class Transaction {
    const db: Database
    var view: Option<Tables>

    constructor (db: Database)
      ensures this.db == db && view == Some(db.t)
    { this.db, view := db, Some(db.t); }

    method Exec(effect: Option<Tables>) returns (ok: bool)
      requires view.Some?
      modifies this, db`faults
      ensures (db.Value(), view) == InTx(old(db.Value()), old(view), effect) && ok == view.Some?
    {
      ok := db.Value().Next().Works? && effect.Some?;
      view := if db.Value().Next().Works? then effect else None;
      db.faults := db.Value().Rest().faults;
    }

    method Commit() returns (ok: bool)
      requires view.Some?
      modifies db
      ensures (db.Value(), ok) == CommitTx(old(db.Value()), view)
    {
      ok := db.Exec(view);
    }
  }

  // --------------------------------------------------------------- gRPC transport

  function Complete(db: Db, s: SagaId): (Db, bool) {
    db.Exec(UpdateState(db.t, s, Completed, None, db.now))
  }

  function Compensate(db: Db, s: SagaId, sub: SubId): (Db, bool) {
    var (db1, ok1) := db.Exec(UpdateState(db.t, s, Compensating, Some(GRPC_REASON), db.now));
    if !ok1 then (db1, false) else
    var (db2, ok2) := db1.Exec(MarkFailed(db1.t, sub));
    if !ok2 then (db2, false) else
    db2.Exec(UpdateState(db2.t, s, Failed, Some(GRPC_REASON), db2.now))
  }

  /** The call may be lost, or served with its answer lost. */
  function Call(e: N.Env, network: Fault, a: Attempt): (N.Env, bool) {
    if network.FailsClean? then (e, false)
    else
      var (e1, ok) := N.SendConfirmation(e, Command(a), a.email != "" && a.repo != "" && a.url != "");
      (e1, ok && network.Works?)
  }

  function StartSync(db: Db, e: N.Env, network: Fault, a: Attempt, reactivate: bool): (Db, N.Env, bool) {
    var (db1, created) := Start(db, a, reactivate, false);
    if !created then (db1, e, false)
    else
      var (e1, sent) := Call(e, network, a);
      var (db2, ok) := if sent then Complete(db1, a.saga) else Compensate(db1, a.saga, a.sub);
      (db2, e1, ok)
  }

  class GrpcSender {
    const server: N.Consumer
    var network: Fault

    constructor (server: N.Consumer, network: Fault)
      ensures this.server == server && this.network == network
    { this.server, this.network := server, network; }

    method SendConfirmation(a: Attempt) returns (ok: bool)
      requires server.dedup.ttl > 0
      modifies server.sender, server.dedup
      ensures (server.Value(), ok) == Call(old(server.Value()), network, a)
    {
      if network.FailsClean? { return false; }
      ok := server.ServeConfirmation(Command(a), a.email != "" && a.repo != "" && a.url != "");
      if !network.Works? { ok := false; }
    }
  }

  class Orchestrator {
    const db: Database
    const sagas: SagaStore
    const subs: SubscriptionStore
    const sender: GrpcSender?          // null selects the broker transport

    constructor (db: Database, sagas: SagaStore, subs: SubscriptionStore, sender: GrpcSender?)
      requires sagas.db == db && subs.db == db
      ensures this.db == db && this.sagas == sagas && this.subs == subs && this.sender == sender
    { this.db, this.sagas, this.subs, this.sender := db, sagas, subs, sender; }

    ghost predicate Wired() { sagas.db == db && subs.db == db }

    /** T1 as the source writes it; `a` carries the drawn identifiers. */
    method RunT1(a: Attempt, reactivate: bool, broker: bool) returns (ok: bool)
      modifies db
      ensures (db.Value(), ok) == Start(old(db.Value()), a, reactivate, broker)
    {
      ok := db.Query();
      if !ok { return; }
      var tx := new Transaction(db);
      ok := tx.Exec(UpsertSubscription(tx.view.value, a, reactivate));
      if !ok { return; }
      ok := tx.Exec(InsertSaga(tx.view.value, a.saga, NewSaga(a, db.now)));
      if !ok { return; }
      if broker {
        ok := tx.Exec(Enqueue(tx.view.value, a.row, a.saga, Command(a)));
        if !ok { return; }
      }
      ok := tx.Commit();
    }

    method DispatchSync(a: Attempt) returns (ok: bool)
      requires Wired() && sender != null && sender.server.dedup.ttl > 0
      modifies db, sender.server.sender, sender.server.dedup
      ensures var (e1, sent) := Call(old(sender.server.Value()), sender.network, a);
              && sender.server.Value() == e1
              && (db.Value(), ok) == if sent then Complete(old(db.Value()), a.saga)
                                     else Compensate(old(db.Value()), a.saga, a.sub)
    {
      var sent := sender.SendConfirmation(a);
      if !sent {
        ok := CompensateSync(a.saga, a.sub);
        return;
      }
      ok := sagas.UpdateState(a.saga, Completed, "");
    }

    method CompensateSync(s: SagaId, sub: SubId) returns (ok: bool)
      requires Wired()
      modifies db
      ensures (db.Value(), ok) == Compensate(old(db.Value()), s, sub)
    {
      ok := sagas.UpdateState(s, Compensating, GRPC_REASON);
      if !ok { return; }
      ok := subs.MarkFailed(sub);
      if !ok { return; }
      ok := sagas.UpdateState(s, Failed, GRPC_REASON);
    }

    /** StartConfirmation and ReactivateConfirmation. */
    method StartConfirmation(a: Attempt, reactivate: bool) returns (ok: bool)
      requires Wired() && (sender != null ==> sender.server.dedup.ttl > 0)
      modifies db, if sender == null then {} else {sender.server.sender, sender.server.dedup}
      ensures sender == null ==> (db.Value(), ok) == Start(old(db.Value()), a, reactivate, true)
      ensures sender != null ==>
                (db.Value(), sender.server.Value(), ok) ==
                StartSync(old(db.Value()), old(sender.server.Value()), sender.network, a, reactivate)
    {
      ok := RunT1(a, reactivate, sender == null);
      if !ok || sender == null { return; }
      ok := DispatchSync(a);
    }
  }

  // ------------------------------------------------------------------ theorems

  /** T1 leaves all of its rows or none, whatever fails where; it succeeds only
      with all of them; and without faults it fails only on a constraint. */
  lemma AllOrNothing(db: Db, a: Attempt, reactivate: bool, broker: bool)
    ensures var (z, ok) := Start(db, a, reactivate, broker);
            var whole := T1(db.t, a, reactivate, broker, db.now);
            && (z.t == db.t || (whole.Some? && z.t == whole.value))
            && (ok ==> whole.Some? && z.t == whole.value)
            && (db.faults == [] ==> (ok <==> whole.Some?))
  {}

  /** T1 is begin, row, saga, command (broker only) and commit. Everything is written
      if and only if no constraint stands against it, all statements before the
      commit work and the commit takes effect; it is reported if and only if the
      commit works as well. */
  lemma StartExactly(db: Db, a: Attempt, reactivate: bool, broker: bool)
    ensures var (z, ok) := Start(db, a, reactivate, broker);
            var whole, commit := T1(db.t, a, reactivate, broker, db.now), if broker then 4 else 3;
            && z.t == (if whole.Some? && AllWork(db.faults, 0, commit) && !At(db.faults, commit).FailsClean?
                       then whole.value else db.t)
            && (ok <==> whole.Some? && AllWork(db.faults, 0, commit + 1))
            && (ok ==> z == Db(whole.value, Left(db.faults, commit + 1), db.now))
  {
    FirstPlaces(db.faults);
    if broker { StartOverBroker(db, a, reactivate); } else { StartInline(db, a, reactivate); }
  }

  /** The first places of a script, one by one. */
  lemma FirstPlaces(faults: seq<Fault>)
    ensures AllWork(faults, 0, 3) <==> At(faults, 0).Works? && At(faults, 1).Works? && At(faults, 2).Works?
    ensures AllWork(faults, 0, 4) <==> AllWork(faults, 0, 3) && At(faults, 3).Works?
    ensures AllWork(faults, 0, 5) <==> AllWork(faults, 0, 4) && At(faults, 4).Works?
  {}

  /** Begin, row and saga: the view they leave, and the rest of the script. */
  lemma FirstThree(db: Db, a: Attempt, reactivate: bool)
    ensures var (db0, begun) := db.Query();
            var (db1, v1) := InTx(db0, Some(db0.t), UpsertSubscription(db0.t, a, reactivate));
            var (db2, v2) := InTx(db1, v1, if v1.Some? then InsertSaga(v1.value, a.saga, NewSaga(a, db.now)) else None);
            var worked := At(db.faults, 0).Works? && At(db.faults, 1).Works? && At(db.faults, 2).Works?;
            && begun == At(db.faults, 0).Works? && db2.t == db.t && db2.now == db.now
            && (begun && v2.Some? <==> worked && T1(db.t, a, reactivate, false, db.now).Some?)
            && (v2.Some? && worked ==>
                  v2 == T1(db.t, a, reactivate, false, db.now) && db2 == Db(db.t, Left(db.faults, 3), db.now))
  {
    NextPlace(db.faults, 0);
    NextPlace(db.faults, 1);
    NextPlace(db.faults, 2);
  }

  lemma StartInline(db: Db, a: Attempt, reactivate: bool)
    ensures var (z, ok) := Start(db, a, reactivate, false);
            var whole := T1(db.t, a, reactivate, false, db.now);
            var worked := At(db.faults, 0).Works? && At(db.faults, 1).Works? && At(db.faults, 2).Works?;
            && z.t == (if whole.Some? && worked && !At(db.faults, 3).FailsClean? then whole.value else db.t)
            && (ok <==> whole.Some? && worked && At(db.faults, 3).Works?)
            && (ok ==> z == Db(whole.value, Left(db.faults, 4), db.now))
  {
    FirstThree(db, a, reactivate);
    NextPlace(db.faults, 3);
  }

  lemma StartOverBroker(db: Db, a: Attempt, reactivate: bool)
    ensures var (z, ok) := Start(db, a, reactivate, true);
            var whole := T1(db.t, a, reactivate, true, db.now);
            var worked := At(db.faults, 0).Works? && At(db.faults, 1).Works? && At(db.faults, 2).Works? && At(db.faults, 3).Works?;
            && z.t == (if whole.Some? && worked && !At(db.faults, 4).FailsClean? then whole.value else db.t)
            && (ok <==> whole.Some? && worked && At(db.faults, 4).Works?)
            && (ok ==> z == Db(whole.value, Left(db.faults, 5), db.now))
  {
    FirstThree(db, a, reactivate);
    NextPlace(db.faults, 3);
    NextPlace(db.faults, 4);
    T1OverBroker(db.t, a, reactivate, db.now);
  }

  lemma T1OverBroker(t: Tables, a: Attempt, reactivate: bool, now: nat)
    ensures var inner := T1(t, a, reactivate, false, now);
            T1(t, a, reactivate, true, now) == if inner.Some? then Enqueue(inner.value, a.row, a.saga, Command(a)) else None
  {}

  // ------------------------------------------------------ the inline path, exactly

  /** The call reaches the server, and the request has all its fields. */
  predicate Served(network: Fault, a: Attempt) { !network.FailsClean? && a.email != "" && a.repo != "" && a.url != "" }

  /** The server mails the address of the attempt its link, at most once: if and
      only if it is served a request that it does not read as seen and the mail
      server takes it. The caller hears OK if and only if the answer comes back
      and the mail went out, now or before. */
  lemma CallExactly(e: N.Env, network: Fault, a: Attempt)
    ensures var (z, ok) := Call(e, network, a);
            var mail := Delivery(RoutingConfirm, ConfirmMessage(a.token), ConfirmationRequest(a.saga, a.email, a.url));
            var mailed := Served(network, a) && !N.ReadAsSeen(e, mail) && |e.smtp| > 0 && e.smtp[0];
            && z.accepted == (if mailed then e.accepted + [mail] else e.accepted)
            && z.dedup == N.KeysAfter(e, mail, mailed)
            && z.replies == e.replies
            && (ok <==> network.Works? && Served(network, a) && (N.ReadAsSeen(e, mail) || mailed))
  {
    N.ServedExactly(e, Command(a), Served(Works, a));
  }

  lemma CompleteExactly(db: Db, s: SagaId)
    requires s in db.t.sagas
    ensures var (z, ok) := Complete(db, s);
            && ok == At(db.faults, 0).Works?
            && z.t == (if At(db.faults, 0).FailsClean? then db.t
                       else db.t.(sagas := db.t.sagas[s := db.t.sagas[s].(state := Completed, lastError := None, updatedAt := db.now)]))
  {}

  /** Each of the three writes is made if and only if the one before it worked and
      its own takes effect. */
  lemma CompensateExactly(db: Db, s: SagaId, sub: SubId)
    requires s in db.t.sagas
    ensures var (z, ok) := Compensate(db, s, sub);
            var (decides, marks) := (!At(db.faults, 0).FailsClean?, At(db.faults, 0).Works? && sub in db.t.subs);
            var finishes := marks && At(db.faults, 1).Works? && !At(db.faults, 2).FailsClean?;
            && (ok <==> finishes && At(db.faults, 2).Works?)
            && z.t.sagas == (if !decides then db.t.sagas else db.t.sagas[s := db.t.sagas[s].(
                 state := if finishes then Failed else Compensating,
                 lastError := Some("confirmation email failed (grpc)"), updatedAt := db.now)])
            && z.t.subs == (if marks && !At(db.faults, 1).FailsClean?
                            then db.t.subs[sub := db.t.subs[sub].(status := MarkedFailed)] else db.t.subs)
            && z.t.outbox == db.t.outbox
  {}

  /** Nothing is called unless T1 is reported; then the answer alone decides between
      one completing write and the three of a compensation, whose faults come after
      the four of T1. */
  lemma InlineExactly(db: Db, e: N.Env, network: Fault, a: Attempt, reactivate: bool)
    ensures var (z, e1, ok) := StartSync(db, e, network, a, reactivate);
            var (whole, heard) := (T1(db.t, a, reactivate, false, db.now), Call(e, network, a).1);
            if whole.Some? && AllWork(db.faults, 0, 4) then
              var after := Db(whole.value, Left(db.faults, 4), db.now);
              && e1 == Call(e, network, a).0
              && (heard ==> (z, ok) == Complete(after, a.saga))
              && (!heard ==> (z, ok) == Compensate(after, a.saga, a.sub))
            else z == Start(db, a, reactivate, false).0 && e1 == e && !ok
  {
    StartExactly(db, a, reactivate, false);
  }
}
