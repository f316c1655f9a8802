/** HandleReply: three unguarded SQL writes that survive being stopped after any
    of them, because a redelivery finishes what an interrupted delivery began. */
module ReplyConsumers {
  import opened Model
  import opened Stores
  import opened Protocol

  /** HandleReply's statements in order, on an undamaged message. */
  function Handle(db: Db, r: Reply): (Db, bool) {
    var (db1, loaded) := db.Query();
    if !loaded then (db1, false)
    else if r.sagaId !in db1.t.sagas || !Acts(r, db1.t.sagas[r.sagaId].state) then (db1, true)
    else if r.status.Sent? then
      db1.Exec(UpdateState(db1.t, r.sagaId, Completed, None, db1.now))
    else
      var (db2, ok2) := db1.Exec(UpdateState(db1.t, r.sagaId, Compensating, Some(FAILED_REASON), db1.now));
      if !ok2 then (db2, false) else
      var (db3, ok3) := db2.Exec(MarkFailed(db2.t, db1.t.sagas[r.sagaId].sub));
      if !ok3 then (db3, false) else
      db3.Exec(UpdateState(db3.t, r.sagaId, Failed, Some(FAILED_REASON), db3.now))
  }

  /** A body that does not decode fails before any statement. */
  function HandleBody(db: Db, body: Option<Reply>): (Db, bool) {
    if body.None? then (db, false) else Handle(db, body.value)
  }

  const ATTEMPTS: nat := 3

  /** Up to `left` attempts; `canceledAfter` counts the attempts made before the
      context is canceled. */
  function Retry(db: Db, body: Option<Reply>, left: nat, canceledAfter: nat): (Db, bool)
    decreases left
  {
    if left == 0 then (db, false) else
    var (db1, ok) := HandleBody(db, body);
    if ok || left == 1 || canceledAfter <= 1 then (db1, ok) else Retry(db1, body, left - 1, canceledAfter - 1)
  }

  class ReplyConsumer {
    const sagas: SagaStore
    const subs: SubscriptionStore

    constructor (sagas: SagaStore, subs: SubscriptionStore)
      requires sagas.db == subs.db
      ensures this.sagas == sagas && this.subs == subs
    { this.sagas, this.subs := sagas, subs; }

    method HandleReply(body: Option<Reply>) returns (ok: bool)
      requires sagas.db == subs.db
      modifies sagas.db
      ensures (sagas.db.Value(), ok) == HandleBody(old(sagas.db.Value()), body)
    {
      if body.None? { return false; }
      var r := body.value;
      var found: Option<Saga>;
      ok, found := sagas.GetByID(r.sagaId);
      if !ok { return false; }
      if found.None? { return true; }
      var saga := found.value;
      match r.status {
        case Sent =>
          if saga.state.SubscriptionCreated? {
            ok := sagas.UpdateState(r.sagaId, Completed, "");
            return;
          }
        case NotSent =>
          if saga.state.SubscriptionCreated? || saga.state.Compensating? {
            ok := sagas.UpdateState(r.sagaId, Compensating, FAILED_REASON);
            if !ok { return false; }
            ok := subs.MarkFailed(saga.sub);
            if !ok { return false; }
            ok := sagas.UpdateState(r.sagaId, Failed, FAILED_REASON);
            return;
          }
        case UnknownStatus =>
      }
      return true;
    }

    method HandleWithRetry(body: Option<Reply>, canceledAfter: nat) returns (ok: bool)
      requires sagas.db == subs.db
      modifies sagas.db
      ensures (sagas.db.Value(), ok) == Retry(old(sagas.db.Value()), body, ATTEMPTS, canceledAfter)
    {
      ok := false;
      var i := 1;
      while i <= ATTEMPTS
        invariant 1 <= i <= ATTEMPTS
        invariant i == 1 || i <= canceledAfter
        invariant Retry(sagas.db.Value(), body, ATTEMPTS + 1 - i, if canceledAfter < i then 0 else canceledAfter + 1 - i) ==
                  Retry(old(sagas.db.Value()), body, ATTEMPTS, canceledAfter)
      {
        ok := HandleReply(body);
        if ok { return true; }
        if i == ATTEMPTS { break; }
        if canceledAfter <= i { return false; }
        i := i + 1;
      }
    }
  }

  // ------------------------------------------------- crash and redelivery

  /** Equal tables up to the stamps of saga.updated_at. */
  ghost predicate Same(t: Tables, u: Tables) {
    && t.subs == u.subs && t.outbox == u.outbox && t.sagas.Keys == u.sagas.Keys
    && forall s | s in t.sagas :: t.sagas[s].(updatedAt := 0) == u.sagas[s].(updatedAt := 0)
  }

  /** One delivery in which every statement works. */
  function Clean(t: Tables, r: Reply, now: nat): (Tables, bool) {
    var (db, ok) := Handle(Db(t, [], now), r);
    (db.t, ok)
  }

  lemma CleanRespectsSame(t: Tables, u: Tables, r: Reply, m: nat, n: nat)
    requires Same(t, u)
    ensures Same(Clean(t, r, m).0, Clean(u, r, n).0) && Clean(t, r, m).1 == Clean(u, r, n).1
  {}

  /** The tables after the first `k` writes of a delivery that acts. */
  function Prefix(t: Tables, r: Reply, now: nat, k: nat): Tables
    requires r.sagaId in t.sagas && k <= 3
  {
    if k == 0 then t
    else if r.status.Sent? then UpdateState(t, r.sagaId, Completed, None, now).value
    else
      var t1 := UpdateState(t, r.sagaId, Compensating, Some(FAILED_REASON), now).value;
      if k == 1 || t.sagas[r.sagaId].sub !in t1.subs then t1 else
      var t2 := MarkFailed(t1, t.sagas[r.sagaId].sub).value;
      if k == 2 then t2 else UpdateState(t2, r.sagaId, Failed, Some(FAILED_REASON), now).value
  }

  /** However the statements fail, a delivery leaves some prefix of its writes. */
  lemma StopsAfterPrefix(db: Db, r: Reply) returns (k: nat)
    requires r.sagaId in db.t.sagas
    ensures k <= 3 && Handle(db, r).0.t == Prefix(db.t, r, db.now, k)
    ensures !Acts(r, db.t.sagas[r.sagaId].state) ==> k == 0
  {
    var t := Handle(db, r).0.t;
    k := if t == Prefix(db.t, r, db.now, 0) then 0
    else if t == Prefix(db.t, r, db.now, 1) then 1
    else if t == Prefix(db.t, r, db.now, 2) then 2 else 3;
  }

  lemma CleanIsWhole(t: Tables, r: Reply, now: nat)
    requires r.sagaId in t.sagas && Acts(r, t.sagas[r.sagaId].state)
    ensures Clean(t, r, now).0 == Prefix(t, r, now, 3)
    ensures Clean(t, r, now).1 <==> r.status.Sent? || t.sagas[r.sagaId].sub in t.subs
  {}

  lemma PrefixThenClean(t: Tables, r: Reply, m: nat, n: nat, k: nat)
    requires r.sagaId in t.sagas && Acts(r, t.sagas[r.sagaId].state) && k <= 3
    ensures Same(Clean(Prefix(t, r, m, k), r, n).0, Clean(t, r, n).0)
    ensures Clean(Prefix(t, r, m, k), r, n).1 == Clean(t, r, n).1
  {
    CleanIsWhole(t, r, n);
    var u := Prefix(t, r, m, k);
    if Acts(r, u.sagas[r.sagaId].state) {
      CleanIsWhole(u, r, n);
      PrefixOfPrefix(t, r, m, n, k);
    } else {
      DecidedPrefix(t, r, m, n, k);
    }
  }

  lemma PrefixKeepsRows(t: Tables, r: Reply, m: nat, k: nat)
    requires r.sagaId in t.sagas && k <= 3
    ensures var u := Prefix(t, r, m, k);
            && u.sagas.Keys == t.sagas.Keys && u.subs.Keys == t.subs.Keys && u.outbox == t.outbox
            && u.sagas[r.sagaId].sub == t.sagas[r.sagaId].sub
            && u.sagas[r.sagaId].email == t.sagas[r.sagaId].email && u.sagas[r.sagaId].repo == t.sagas[r.sagaId].repo
            && (forall s | s in t.sagas && s != r.sagaId :: u.sagas[s] == t.sagas[s])
            && (forall i | i in t.subs && i != t.sagas[r.sagaId].sub :: u.subs[i] == t.subs[i])
            && (t.sagas[r.sagaId].sub in t.subs ==>
                  u.subs[t.sagas[r.sagaId].sub].(status := MarkedFailed) == t.subs[t.sagas[r.sagaId].sub].(status := MarkedFailed))
            && (r.status.Sent? ==> u.subs == t.subs)
  {}

  /** The whole, read off the rows it starts from. */
  lemma WholeRows(t: Tables, r: Reply, n: nat)
    requires r.sagaId in t.sagas && (r.status.Sent? || r.status.NotSent?)
    ensures var s, u := t.sagas[r.sagaId], Prefix(t, r, n, 3);
            && u.outbox == t.outbox
            && u.subs == (if r.status.Sent? || s.sub !in t.subs then t.subs else t.subs[s.sub := t.subs[s.sub].(status := MarkedFailed)])
            && u.sagas == t.sagas[r.sagaId :=
                 if r.status.Sent? then s.(state := Completed, lastError := None, updatedAt := n)
                 else s.(state := if s.sub in t.subs then Failed else Compensating, lastError := Some(FAILED_REASON), updatedAt := n)]
  {}

  /** Writing everything again over a prefix ends where writing it once ends. */
  lemma PrefixOfPrefix(t: Tables, r: Reply, m: nat, n: nat, k: nat)
    requires r.sagaId in t.sagas && Acts(r, t.sagas[r.sagaId].state) && k <= 3
    ensures var u := Prefix(t, r, m, k);
            && r.sagaId in u.sagas && u.sagas[r.sagaId].sub == t.sagas[r.sagaId].sub && u.subs.Keys == t.subs.Keys
            && Same(Prefix(u, r, n, 3), Prefix(t, r, n, 3))
  {
    PrefixKeepsRows(t, r, m, k);
    WholeRows(t, r, n);
    WholeRows(Prefix(t, r, m, k), r, n);
  }

  /** A prefix on which the reply acts no more is the whole. */
  lemma DecidedPrefix(t: Tables, r: Reply, m: nat, n: nat, k: nat)
    requires r.sagaId in t.sagas && Acts(r, t.sagas[r.sagaId].state) && k <= 3
    requires r.sagaId in Prefix(t, r, m, k).sagas && !Acts(r, Prefix(t, r, m, k).sagas[r.sagaId].state)
    ensures Same(Prefix(t, r, m, k), Prefix(t, r, n, 3)) && (r.status.Sent? || t.sagas[r.sagaId].sub in t.subs)
  {}

  /** One interrupted delivery, wherever it stopped, changes nothing that the
      next clean delivery would not have changed as well. */
  lemma InterruptedOnce(db: Db, r: Reply, n: nat)
    ensures Same(Clean(Handle(db, r).0.t, r, n).0, Clean(db.t, r, n).0)
    ensures Clean(Handle(db, r).0.t, r, n).1 == Clean(db.t, r, n).1
  {
    if r.sagaId in db.t.sagas && Acts(r, db.t.sagas[r.sagaId].state) {
      var k := StopsAfterPrefix(db, r);
      PrefixThenClean(db.t, r, db.now, n, k);
    }
  }

  /** Deliveries of `r` one after another, each with its own faults and clock. */
  function Interrupted(t: Tables, r: Reply, runs: seq<(seq<Fault>, nat)>): Tables
    decreases |runs|
  {
    if runs == [] then t
    else Interrupted(Handle(Db(t, runs[0].0, runs[0].1), r).0.t, r, runs[1..])
  }

  /** Crash-redelivery refinement: any number of interrupted deliveries followed
      by one that completes leaves the tables one uninterrupted delivery leaves,
      up to updated_at, and reports the same outcome. */
  lemma {:induction false} RedeliveryRefines(t: Tables, r: Reply, runs: seq<(seq<Fault>, nat)>, m: nat, n: nat)
    ensures Same(Clean(Interrupted(t, r, runs), r, m).0, Clean(t, r, n).0)
    ensures Clean(Interrupted(t, r, runs), r, m).1 == Clean(t, r, n).1
    decreases |runs|
  {
    if runs == [] {
      CleanRespectsSame(t, t, r, m, n);
    } else {
      var db := Db(t, runs[0].0, runs[0].1);
      RedeliveryRefines(Handle(db, r).0.t, r, runs[1..], m, n);
      InterruptedOnce(db, r, n);
    }
  }

  // ------------------------------------------------------- one delivery, exactly

  /** What the reply asks of its saga, if it can be loaded. */
  predicate Completes(t: Tables, r: Reply) {
    r.status.Sent? && r.sagaId in t.sagas && t.sagas[r.sagaId].state.SubscriptionCreated?
  }

  predicate Fails(t: Tables, r: Reply) {
    && r.status.NotSent? && r.sagaId in t.sagas
    && (t.sagas[r.sagaId].state.SubscriptionCreated? || t.sagas[r.sagaId].state.Compensating?)
  }

  /** Under any failures: the load comes first, and a reply with nothing to do is
      then done. */
  lemma LoadsExactly(db: Db, r: Reply)
    ensures !At(db.faults, 0).Works? ==> Handle(db, r).0.t == db.t && !Handle(db, r).1
    ensures At(db.faults, 0).Works? && !Completes(db.t, r) && !Fails(db.t, r) ==> Handle(db, r).0.t == db.t && Handle(db, r).1
  {}

  /** "sent" is one write ... */
  lemma CompletesExactly(db: Db, r: Reply)
    requires At(db.faults, 0).Works? && Completes(db.t, r)
    ensures var (z, ok) := Handle(db, r);
            var done := db.t.sagas[r.sagaId].(state := Completed, lastError := None, updatedAt := db.now);
            && ok == At(db.faults, 1).Works?
            && z.t == if At(db.faults, 1).FailsClean? then db.t else db.t.(sagas := db.t.sagas[r.sagaId := done])
  {
    NextPlace(db.faults, 0);
  }

  /** ... and "failed" is three, each made if and only if the one before it worked
      and its own takes effect. */
  lemma FailsExactly(db: Db, r: Reply)
    requires At(db.faults, 0).Works? && Fails(db.t, r)
    ensures var (z, ok) := Handle(db, r);
            var (saga, decides) := (db.t.sagas[r.sagaId], !At(db.faults, 1).FailsClean?);
            var marks := saga.sub in db.t.subs && At(db.faults, 1).Works?;
            var ends := marks && At(db.faults, 2).Works? && !At(db.faults, 3).FailsClean?;
            && (ok <==> ends && At(db.faults, 3).Works?)
            && z.t.outbox == db.t.outbox
            && z.t.subs == (if marks && !At(db.faults, 2).FailsClean?
                            then db.t.subs[saga.sub := db.t.subs[saga.sub].(status := MarkedFailed)] else db.t.subs)
            && z.t.sagas == (if !decides then db.t.sagas else db.t.sagas[r.sagaId := saga.(
                 state := if ends then Failed else Compensating,
                 lastError := Some("confirmation email failed"), updatedAt := db.now)])
  {
    NextPlace(db.faults, 0);
    assert forall i: nat :: At(db.Rest().faults, i) == At(db.faults, 1 + i);
    ThreeWrites(db.Rest(), r.sagaId);
  }

  /** The writes after a load, in whose place the script begins here. */
  lemma ThreeWrites(db: Db, s: SagaId)
    requires s in db.t.sagas
    ensures var saga := db.t.sagas[s];
            var (db2, ok2) := db.Exec(UpdateState(db.t, s, Compensating, Some(FAILED_REASON), db.now));
            var (db3, ok3) := if ok2 then db2.Exec(MarkFailed(db2.t, saga.sub)) else (db2, false);
            var (z, ok) := if ok3 then db3.Exec(UpdateState(db3.t, s, Failed, Some(FAILED_REASON), db3.now)) else (db3, false);
            var marks := saga.sub in db.t.subs && At(db.faults, 0).Works?;
            var ends := marks && At(db.faults, 1).Works? && !At(db.faults, 2).FailsClean?;
            && (ok <==> ends && At(db.faults, 2).Works?)
            && z.t.outbox == db.t.outbox
            && z.t.subs == (if marks && !At(db.faults, 1).FailsClean?
                            then db.t.subs[saga.sub := db.t.subs[saga.sub].(status := MarkedFailed)] else db.t.subs)
            && z.t.sagas == (if At(db.faults, 0).FailsClean? then db.t.sagas else db.t.sagas[s := saga.(
                 state := if ends then Failed else Compensating,
                 lastError := Some("confirmation email failed"), updatedAt := db.now)])
  {}

  /** A success leaves what a delivery without failures leaves. */
  lemma SuccessIsClean(db: Db, r: Reply)
    requires Handle(db, r).1
    ensures Handle(db, r).0.t == Clean(db.t, r, db.now).0 && Clean(db.t, r, db.now).1
  {}

  lemma NoFaultIsClean(db: Db, r: Reply)
    requires AllWork(db.faults, 0, 4)
    ensures Handle(db, r).1 == Clean(db.t, r, db.now).1
  {
    assert At(db.faults, 0).Works? && At(db.faults, 1).Works? && At(db.faults, 2).Works? && At(db.faults, 3).Works?;
    var calm := Db(db.t, [], db.now);
    LoadsExactly(db, r);
    LoadsExactly(calm, r);
    if Completes(db.t, r) { CompletesExactly(db, r); CompletesExactly(calm, r); }
    if Fails(db.t, r) { FailsExactly(db, r); FailsExactly(calm, r); }
  }

  // ------------------------------------------------------------------ the retries

  /** The database as the attempt after `n` others meets it. */
  function Before(db: Db, body: Option<Reply>, n: nat): Db
    decreases n
  {
    if n == 0 then db else Before(HandleBody(db, body).0, body, n - 1)
  }

  lemma {:induction false} RetryUntil(db: Db, body: Option<Reply>, left: nat, canceledAfter: nat) returns (n: nat)
    requires left > 0
    ensures 1 <= n <= left && (n == 1 || n <= canceledAfter)
    ensures Retry(db, body, left, canceledAfter) == HandleBody(Before(db, body, n - 1), body)
    ensures forall i: nat | i < n - 1 :: !HandleBody(Before(db, body, i), body).1
    ensures Retry(db, body, left, canceledAfter).1 || n == left || n >= canceledAfter
    decreases left
  {
    var (db1, ok) := HandleBody(db, body);
    if ok || left == 1 || canceledAfter <= 1 {
      n := 1;
    } else {
      var m := RetryUntil(db1, body, left - 1, canceledAfter - 1);
      n := m + 1;
      forall i: nat | i < n - 1 ensures !HandleBody(Before(db, body, i), body).1 {
        if i > 0 { assert Before(db, body, i) == Before(db1, body, i - 1); }
      }
    }
  }

  /** handleWithRetry stops at the first attempt that succeeds: there is an n of at
      most three, and within the context, such that the first n - 1 attempts failed
      and the n-th decides; it reports a failure only with nothing left to try. */
  lemma RetriesUntilHandled(db: Db, body: Option<Reply>, canceledAfter: nat) returns (n: nat)
    ensures var budget := if canceledAfter == 0 then 1 else if canceledAfter < 3 then canceledAfter else 3;
            && 1 <= n <= budget
            && (!Retry(db, body, ATTEMPTS, canceledAfter).1 ==> n == budget)
    ensures Retry(db, body, ATTEMPTS, canceledAfter) == HandleBody(Before(db, body, n - 1), body)
    ensures forall i: nat | i < n - 1 :: !HandleBody(Before(db, body, i), body).1
  {
    n := RetryUntil(db, body, ATTEMPTS, canceledAfter);
  }

  /** Whatever the attempts before left, a clean one ends the same. */
  lemma {:induction false} BeforeEndsClean(db: Db, r: Reply, n: nat, m: nat)
    ensures Same(Clean(Before(db, Some(r), n).t, r, m).0, Clean(db.t, r, m).0)
    ensures Clean(Before(db, Some(r), n).t, r, m).1 == Clean(db.t, r, m).1
    decreases n
  {
    if n == 0 {
      CleanRespectsSame(db.t, db.t, r, m, m);
    } else {
      InterruptedOnce(db, r, m);
      BeforeEndsClean(Handle(db, r).0, r, n - 1, m);
    }
  }

  lemma {:induction false} BeforeKeepsClock(db: Db, body: Option<Reply>, n: nat)
    ensures Before(db, body, n).now == db.now
    decreases n
  {
    if n > 0 { BeforeKeepsClock(HandleBody(db, body).0, body, n - 1); }
  }

  /** A blip is survived: with the context alive, a reply is handled as soon as one
      of its three attempts meets no failure, with the tables that one undisturbed
      delivery leaves; and only a reply that such a delivery refuses is dropped. */
  lemma OneGoodAttemptSuffices(db: Db, r: Reply, canceledAfter: nat, i: nat)
    requires canceledAfter >= 3 && i < 3 && AllWork(Before(db, Some(r), i).faults, 0, 4)
    ensures var (z, ok) := Retry(db, Some(r), ATTEMPTS, canceledAfter);
            && ok == Clean(db.t, r, db.now).1
            && (ok ==> Same(z.t, Clean(db.t, r, db.now).0))
  {
    var n := RetriesUntilHandled(db, Some(r), canceledAfter);
    var last := Before(db, Some(r), n - 1);
    BeforeKeepsClock(db, Some(r), n - 1);
    BeforeKeepsClock(db, Some(r), i);
    BeforeEndsClean(db, r, n - 1, db.now);
    BeforeEndsClean(db, r, i, db.now);
    NoFaultIsClean(Before(db, Some(r), i), r);
    if Handle(last, r).1 { SuccessIsClean(last, r); }
  }

  // ------------------------------------------------------ sequences of replies

  /** A reply together with the deliveries of it that were cut short. */
  datatype Arrival = Arrival(r: Reply, runs: seq<(seq<Fault>, nat)>, now: nat)

  function HandleAll(t: Tables, arrivals: seq<Arrival>): Tables
    decreases |arrivals|
  {
    if arrivals == [] then t
    else
      var a := arrivals[0];
      HandleAll(Clean(Interrupted(t, a.r, a.runs), a.r, a.now).0, arrivals[1..])
  }

  /** The first status about `s` that the consumer knows how to read. */
  function FirstKnown(arrivals: seq<Arrival>, s: SagaId): ReplyStatus
    decreases |arrivals|
  {
    if arrivals == [] then UnknownStatus
    else if arrivals[0].r.sagaId == s && !arrivals[0].r.status.UnknownStatus? then arrivals[0].r.status
    else FirstKnown(arrivals[1..], s)
  }

  /** What one known reply makes of a waiting saga. */
  function Verdict(t: Tables, s: SagaId, status: ReplyStatus): SagaState
    requires s in t.sagas
  {
    match status
    case Sent => Completed
    case NotSent => if t.sagas[s].sub in t.subs then Failed else Compensating
    case UnknownStatus => SubscriptionCreated
  }

  /** No reply moves the saga any more: it is finished, or its compensation can
      find no row. */
  predicate Fixed(t: Tables, s: SagaId) {
    && s in t.sagas
    && (Terminal(t.sagas[s].state) || (t.sagas[s].state.Compensating? && t.sagas[s].sub !in t.subs))
  }

  /** What a clean delivery does to the saga `s` itself. */
  lemma CleanDecides(t: Tables, r: Reply, now: nat, s: SagaId)
    requires s in t.sagas
    ensures var c := Clean(t, r, now).0;
            && s in c.sagas && c.sagas[s].sub == t.sagas[s].sub
            && (Fixed(t, s) ==> c.sagas[s].state == t.sagas[s].state)
            && (t.sagas[s].state.SubscriptionCreated? ==>
                  c.sagas[s].state == Verdict(t, s, if r.sagaId == s then r.status else UnknownStatus))
  {}

  /** ... and to the subscriptions. */
  lemma CleanMarks(t: Tables, r: Reply, now: nat, s: SagaId)
    requires s in t.sagas
    ensures var c := Clean(t, r, now).0;
            && c.subs.Keys == t.subs.Keys
            && (forall i | i in t.subs && t.subs[i].status == MarkedFailed :: c.subs[i].status == MarkedFailed)
            && (t.sagas[s].state.SubscriptionCreated? && t.sagas[s].sub in t.subs && r == Reply(s, NotSent) ==>
                  c.subs[t.sagas[s].sub].status == MarkedFailed)
  {}

  lemma SameState(t: Tables, u: Tables, s: SagaId)
    requires Same(t, u) && s in t.sagas
    ensures s in u.sagas && u.sagas[s].state == t.sagas[s].state && u.sagas[s].sub == t.sagas[s].sub
  {
    assert t.sagas[s].(updatedAt := 0) == u.sagas[s].(updatedAt := 0);
  }

  lemma CleanOutcome(t: Tables, u: Tables, r: Reply, now: nat, s: SagaId)
    requires s in t.sagas && Same(Clean(t, r, now).0, u)
    ensures s in u.sagas && u.sagas[s].sub == t.sagas[s].sub && u.subs.Keys == t.subs.Keys
    ensures Fixed(t, s) ==> u.sagas[s].state == t.sagas[s].state
    ensures t.sagas[s].state.SubscriptionCreated? ==>
              u.sagas[s].state == Verdict(t, s, if r.sagaId == s then r.status else UnknownStatus)
    ensures forall i | i in t.subs && t.subs[i].status == MarkedFailed :: u.subs[i].status == MarkedFailed
    ensures t.sagas[s].state.SubscriptionCreated? && t.sagas[s].sub in t.subs && r == Reply(s, NotSent) ==>
              u.subs[t.sagas[s].sub].status == MarkedFailed
  {
    CleanDecides(t, r, now, s);
    CleanMarks(t, r, now, s);
    SameState(Clean(t, r, now).0, u, s);
  }

  lemma {:induction false} FixedStays(t: Tables, arrivals: seq<Arrival>, s: SagaId)
    requires Fixed(t, s)
    ensures s in HandleAll(t, arrivals).sagas
    ensures HandleAll(t, arrivals).sagas[s].state == t.sagas[s].state
    ensures forall i | i in t.subs && t.subs[i].status == MarkedFailed ::
              i in HandleAll(t, arrivals).subs && HandleAll(t, arrivals).subs[i].status == MarkedFailed
    decreases |arrivals|
  {
    if arrivals != [] {
      var a := arrivals[0];
      var u := Clean(Interrupted(t, a.r, a.runs), a.r, a.now).0;
      RedeliveryRefines(t, a.r, a.runs, a.now, a.now);
      assert Same(Clean(t, a.r, a.now).0, u);
      CleanOutcome(t, u, a.r, a.now, s);
      FixedStays(u, arrivals[1..], s);
    }
  }

  /** For any finite sequence of replies about any sagas, with duplicates,
      unknown statuses and interrupted deliveries, the first known status about a
      waiting saga decides it: "sent" completes it; "failed" fails it together
      with its subscription, or leaves it compensating for good when the
      subscription is gone. */
  lemma {:induction false} FirstKnownDecides(t: Tables, arrivals: seq<Arrival>, s: SagaId)
    requires s in t.sagas && t.sagas[s].state.SubscriptionCreated?
    ensures s in HandleAll(t, arrivals).sagas
    ensures HandleAll(t, arrivals).sagas[s].state == Verdict(t, s, FirstKnown(arrivals, s))
    ensures FirstKnown(arrivals, s).NotSent? && t.sagas[s].sub in t.subs ==>
              && t.sagas[s].sub in HandleAll(t, arrivals).subs
              && HandleAll(t, arrivals).subs[t.sagas[s].sub].status == MarkedFailed
    decreases |arrivals|
  {
    if arrivals != [] {
      var a := arrivals[0];
      var u := Clean(Interrupted(t, a.r, a.runs), a.r, a.now).0;
      RedeliveryRefines(t, a.r, a.runs, a.now, a.now);
      assert Same(Clean(t, a.r, a.now).0, u);
      CleanOutcome(t, u, a.r, a.now, s);
      if a.r.sagaId == s && !a.r.status.UnknownStatus? {
        FixedStays(u, arrivals[1..], s);
      } else {
        FirstKnownDecides(u, arrivals[1..], s);
      }
    }
  }
}
