/** Relay.drain: publish, then mark, oldest first. */
module Relays {
  import opened Model
  import opened Stores

  /** The broker queue as an append-only log of what reached it. A publish may
      also reach the broker and still be reported as failed. */
  datatype Broker = Broker(log: seq<Delivery>, faults: seq<Fault>) {
    function Publish(d: Delivery): (Broker, bool) {
      (Broker(if Head(faults).FailsClean? then log else log + [d], Tail(faults)), Head(faults).Works?)
    }
  }

  class Publisher {
    var log: seq<Delivery>
    var faults: seq<Fault>

    function Value(): Broker reads this { Broker(log, faults) }

    method Publish(d: Delivery) returns (ok: bool)
      modifies this
      ensures (Value(), ok) == old(Value()).Publish(d)
    {
      ok := Head(faults).Works?;
      if !Head(faults).FailsClean? { log := log + [d]; }
      faults := Tail(faults);
    }
  }

  /** Publish one row and, if the broker took it, try to stamp it. */
  function PublishRow(db: Db, broker: Broker, row: nat): (Db, Broker, bool)
    requires row in db.t.outbox
  {
    var (broker1, ok) := broker.Publish(db.t.outbox[row].message);
    (if ok then db.Exec(Some(MarkPublished(db.t, row, db.now))).0 else db, broker1, ok)
  }

  lemma PublishRowEffect(db: Db, broker: Broker, row: nat)
    requires row in db.t.outbox
    ensures var (db1, broker1, ok) := PublishRow(db, broker, row);
            && StampedWithin(db.t, db1.t, [row])
            && (broker1.log == broker.log || broker1.log == broker.log + [db.t.outbox[row].message])
            && (ok ==> broker1.log == broker.log + [db.t.outbox[row].message])
            && (!ok ==> db1 == db)
  {}

  /** `u` differs from `t` only in rows of `rows` that got a stamp. */
  ghost predicate StampedWithin(t: Tables, u: Tables, rows: seq<nat>) {
    && u.subs == t.subs && u.sagas == t.sagas && u.outbox.Keys == t.outbox.Keys
    && forall r | r in t.outbox ::
         && u.outbox[r].sagaId == t.outbox[r].sagaId
         && u.outbox[r].message == t.outbox[r].message
         && (u.outbox[r] != t.outbox[r] ==> r in rows && u.outbox[r].publishedAt.Some?)
  }

  function DrainRows(db: Db, broker: Broker, rows: seq<nat>): (Db, Broker)
    requires forall i | 0 <= i < |rows| :: rows[i] in db.t.outbox
    decreases |rows|
  {
    if rows == [] then (db, broker)
    else
      PublishRowEffect(db, broker, rows[0]);
      var (db1, broker1, ok) := PublishRow(db, broker, rows[0]);
      if ok then DrainRows(db1, broker1, rows[1..]) else (db1, broker1)
  }

  lemma DrainRowsUnfold(db: Db, broker: Broker, rows: seq<nat>, i: nat)
    requires i < |rows| && forall j | 0 <= j < |rows| :: rows[j] in db.t.outbox
    ensures var (db1, broker1, ok) := PublishRow(db, broker, rows[i]);
            && db1.t.outbox.Keys == db.t.outbox.Keys
            && DrainRows(db, broker, rows[i..]) == if ok then DrainRows(db1, broker1, rows[i + 1..]) else (db1, broker1)
  {
    PublishRowEffect(db, broker, rows[i]);
    assert rows[i..][1..] == rows[i + 1..];
  }

  /** One tick of the relay. */
  function Drain(db: Db, broker: Broker, batch: nat): (Db, Broker) {
    var (db1, ok) := db.Query();
    if ok then DrainRows(db1, broker, FetchUnpublished(db1.t, batch)) else (db1, broker)
  }

  class Relay {
    const store: OutboxStore
    const pub: Publisher
    const batch: nat

    constructor (store: OutboxStore, pub: Publisher)
      ensures this.store == store && this.pub == pub && this.batch == BATCH
    { this.store, this.pub, this.batch := store, pub, BATCH; }

    method DrainOnce()
      modifies store.db, pub
      ensures (store.db.Value(), pub.Value()) == Drain(old(store.db.Value()), old(pub.Value()), batch)
    {
      var ok, rows := store.FetchUnpublished(batch);
      if !ok { return; }
      var messages := store.db.t.outbox;
      var i := 0;
      while i < |rows|
        invariant 0 <= i <= |rows|
        invariant store.db.t.outbox.Keys == messages.Keys
        invariant forall r | r in messages :: store.db.t.outbox[r].message == messages[r].message
        invariant forall j | 0 <= j < |rows| :: rows[j] in messages
        invariant DrainRows(store.db.Value(), pub.Value(), rows[i..]) ==
                  Drain(old(store.db.Value()), old(pub.Value()), batch)
      {
        ghost var db, broker := store.db.Value(), pub.Value();
        DrainRowsUnfold(db, broker, rows, i);
        var published := pub.Publish(messages[rows[i]].message);
        if !published { return; }
        var _ := store.MarkPublished(rows[i]);
        assert (store.db.Value(), pub.Value(), true) == PublishRow(db, broker, rows[i]);
        PublishRowEffect(db, broker, rows[i]);
        i := i + 1;
      }
      assert rows[|rows|..] == [];
    }
  }

  // ------------------------------------------------------------------ theorems

  function Messages(t: Tables, rows: seq<nat>): (messages: seq<Delivery>)
    requires forall i | 0 <= i < |rows| :: rows[i] in t.outbox
    ensures |messages| == |rows|
    ensures forall i | 0 <= i < |rows| :: messages[i] == t.outbox[rows[i]].message
  {
    seq(|rows|, i requires 0 <= i < |rows| => t.outbox[rows[i]].message)
  }

  lemma MessagesCons(t: Tables, u: Tables, rows: seq<nat>)
    requires rows != [] && forall i | 0 <= i < |rows| :: rows[i] in t.outbox
    requires u.outbox.Keys == t.outbox.Keys && forall r | r in t.outbox :: u.outbox[r].message == t.outbox[r].message
    ensures Messages(t, rows) == [t.outbox[rows[0]].message] + Messages(u, rows[1..])
  {}

  lemma PrefixCons(t: Tables, u: Tables, v: Tables, row: nat, rest: seq<nat>)
    requires forall r | r in [row] + rest :: r in t.outbox
    requires StampedWithin(t, u, [row]) && StampedWithin(u, v, rest)
    ensures Messages(t, [row] + rest) == [t.outbox[row].message] + Messages(u, rest)
    ensures StampedWithin(t, v, [row] + rest)
  {
    var rows := [row] + rest;
    assert rows[1..] == rest;
    MessagesCons(t, u, rows);
    StampedJoin(t, u, v, rows);
  }

  lemma TakeTail(rows: seq<nat>, m: nat)
    requires m < |rows|
    ensures [rows[0]] + rows[1..][..m] == rows[..m + 1]
  {}

  lemma Associates(log: seq<Delivery>, d: Delivery, rest: seq<Delivery>)
    ensures (log + [d]) + rest == log + ([d] + rest)
  {}

  lemma {:induction false} DrainRowsPrefix(db: Db, broker: Broker, rows: seq<nat>) returns (n: nat)
    requires forall i | 0 <= i < |rows| :: rows[i] in db.t.outbox
    ensures n <= |rows|
    ensures DrainRows(db, broker, rows).1.log == broker.log + Messages(db.t, rows[..n])
    ensures StampedWithin(db.t, DrainRows(db, broker, rows).0.t, rows[..n])
    decreases |rows|
  {
    n := 0;
    if rows != [] {
      PublishRowEffect(db, broker, rows[0]);
      var (db1, broker1, ok) := PublishRow(db, broker, rows[0]);
      if ok {
        var m := DrainRowsPrefix(db1, broker1, rows[1..]);
        n := m + 1;
        var (last, end) := DrainRows(db1, broker1, rows[1..]);
        TakeTail(rows, m);
        PrefixCons(db.t, db1.t, last.t, rows[0], rows[1..][..m]);
        Associates(broker.log, db.t.outbox[rows[0]].message, Messages(db1.t, rows[1..][..m]));
      } else if broker1.log != broker.log {
        n := 1;
        MessagesCons(db.t, db.t, rows[..1]);
        assert Messages(db.t, rows[..1]) == [db.t.outbox[rows[0]].message];
      }
    }
  }

  lemma StampedJoin(t: Tables, u: Tables, v: Tables, rows: seq<nat>)
    requires rows != [] && StampedWithin(t, u, [rows[0]]) && StampedWithin(u, v, rows[1..])
    ensures StampedWithin(t, v, rows)
  {
    forall r | r in t.outbox && v.outbox[r] != t.outbox[r] ensures r in rows && v.outbox[r].publishedAt.Some? {
      if v.outbox[r] == u.outbox[r] { assert r in [rows[0]]; } else { assert r in rows[1..]; }
    }
  }

  /** Every drain, whatever fails, publishes exactly a prefix of the oldest
      unpublished batch in id order and stamps only rows it published. */
  lemma DrainPublishesPrefix(db: Db, broker: Broker, batch: nat) returns (n: nat)
    ensures n <= |FetchUnpublished(db.t, batch)|
    ensures Drain(db, broker, batch).1.log == broker.log + Messages(db.t, FetchUnpublished(db.t, batch)[..n])
    ensures StampedWithin(db.t, Drain(db, broker, batch).0.t, FetchUnpublished(db.t, batch)[..n])
  {
    var (db1, ok) := db.Query();
    n := 0;
    if ok { n := DrainRowsPrefix(db1, broker, FetchUnpublished(db1.t, batch)); }
  }

  /** How far the publishes go: all those before `n` work, and `n` is the end of the
      batch or the first that does not. */
  predicate StopsAt(faults: seq<Fault>, size: nat, n: nat) {
    n <= size && AllWork(faults, 0, n) && (n < size ==> !At(faults, n).Works?)
  }

  /** `u` is `t` with the first `n` rows stamped, except those whose stamp, at its
      place in the script, fails without effect. */
  ghost predicate StampedExactly(t: Tables, u: Tables, rows: seq<nat>, n: nat, faults: seq<Fault>, now: nat)
    requires n <= |rows|
  {
    && u.subs == t.subs && u.sagas == t.sagas && u.outbox.Keys == t.outbox.Keys
    && (forall i | 0 <= i < n && rows[i] in t.outbox ::
          u.outbox[rows[i]] == if At(faults, i).FailsClean? then t.outbox[rows[i]] else t.outbox[rows[i]].(publishedAt := Some(now)))
    && (forall r | r in t.outbox && r !in rows[..n] :: u.outbox[r] == t.outbox[r])
  }

  lemma NextMessages(log: seq<Delivery>, t: Tables, u: Tables, rows: seq<nat>, k: nat)
    requires k < |rows| && forall i | 0 <= i < |rows| :: rows[i] in t.outbox
    requires u.outbox.Keys == t.outbox.Keys && forall r | r in t.outbox :: u.outbox[r].message == t.outbox[r].message
    ensures forall i | 0 <= i < k :: rows[1..][..k][i] in u.outbox
    ensures (log + [t.outbox[rows[0]].message]) + Messages(u, rows[1..][..k]) == log + Messages(t, rows[..k + 1])
  {
    assert rows[..k + 1][1..] == rows[1..][..k];
    MessagesCons(t, u, rows[..k + 1]);
    Associates(log, t.outbox[rows[0]].message, Messages(u, rows[1..][..k]));
  }

  lemma ScriptTail(faults: seq<Fault>, size: nat, m: nat)
    requires size > 0 && At(faults, 0).Works?
    ensures StopsAt(Tail(faults), size - 1, m) <==> StopsAt(faults, size, m + 1)
    ensures At(Tail(faults), m) == At(faults, m + 1)
  {
    assert forall i: nat :: At(Tail(faults), i) == At(faults, i + 1);
    forall i: nat | StopsAt(Tail(faults), size - 1, m) && i < m + 1 ensures At(faults, i).Works? {
      if i > 0 { assert At(Tail(faults), i - 1).Works?; }
    }
  }

  lemma StampsTail(db: Db, db1: Db, u: Tables, rows: seq<nat>, m: nat)
    requires rows != [] && Distinct(rows) && m < |rows| && forall i | 0 <= i < |rows| :: rows[i] in db.t.outbox
    requires db1 == db.Exec(Some(MarkPublished(db.t, rows[0], db.now))).0
    requires StampedExactly(db1.t, u, rows[1..], m, db1.faults, db1.now)
    ensures StampedExactly(db.t, u, rows, m + 1, db.faults, db.now)
  {
    forall i | 0 <= i < m + 1
      ensures u.outbox[rows[i]] == if At(db.faults, i).FailsClean? then db.t.outbox[rows[i]]
                                   else db.t.outbox[rows[i]].(publishedAt := Some(db.now))
    {
      if i == 0 {
        assert rows[0] !in rows[1..][..m];
      } else {
        assert rows[i] == rows[1..][i - 1] && rows[i] != rows[0];
      }
    }
    forall r | r in db.t.outbox && r !in rows[..m + 1] ensures u.outbox[r] == db.t.outbox[r] {
      assert rows[..m + 1][0] == rows[0];
      forall j | 0 <= j < m ensures rows[1..][..m][j] != r { assert rows[..m + 1][j + 1] == rows[1..][..m][j]; }
    }
  }

  /** How many messages reach the broker. */
  function Reaching(faults: seq<Fault>, size: nat, n: nat): nat {
    if n < size && At(faults, n).FailsApplied? then n + 1 else n
  }

  lemma {:induction false} PublishesExactly(db: Db, broker: Broker, rows: seq<nat>) returns (n: nat)
    requires forall i | 0 <= i < |rows| :: rows[i] in db.t.outbox
    ensures StopsAt(broker.faults, |rows|, n)
    ensures DrainRows(db, broker, rows).1.log == broker.log + Messages(db.t, rows[..Reaching(broker.faults, |rows|, n)])
    decreases |rows|
  {
    n := 0;
    if rows != [] {
      PublishRowEffect(db, broker, rows[0]);
      var (db1, broker1, ok) := PublishRow(db, broker, rows[0]);
      if ok {
        var m := PublishesExactly(db1, broker1, rows[1..]);
        n := m + 1;
        ScriptTail(broker.faults, |rows|, m);
        NextMessages(broker.log, db.t, db1.t, rows, Reaching(broker1.faults, |rows| - 1, m));
      } else if broker1.log != broker.log {
        assert Messages(db.t, rows[..1]) == [db.t.outbox[rows[0]].message];
      }
    }
  }

  lemma {:induction false} StampsExactly(db: Db, broker: Broker, rows: seq<nat>, n: nat)
    requires Distinct(rows) && forall i | 0 <= i < |rows| :: rows[i] in db.t.outbox
    requires StopsAt(broker.faults, |rows|, n)
    ensures StampedExactly(db.t, DrainRows(db, broker, rows).0.t, rows, n, db.faults, db.now)
    decreases |rows|
  {
    if n > 0 {
      assert At(broker.faults, 0).Works?;
      PublishRowEffect(db, broker, rows[0]);
      var (db1, broker1, ok) := PublishRow(db, broker, rows[0]);
      ScriptTail(broker.faults, |rows|, n - 1);
      StampsExactly(db1, broker1, rows[1..], n - 1);
      StampsTail(db, db1, DrainRows(db1, broker1, rows[1..]).0.t, rows, n - 1);
    }
  }

  /** A tick, exactly. A failed fetch does nothing. Otherwise the oldest hundred rows
      are published in order up to the first publish that reports an error, which may
      still have reached the broker; each row published without error is stamped
      unless its own stamp fails, and no failed stamp ends the drain. */
  lemma DrainsExactly(db: Db, broker: Broker) returns (n: nat)
    ensures n <= |FetchUnpublished(db.t, 100)|
    ensures var (z, after) := Drain(db, broker, BATCH);
            var rows := FetchUnpublished(db.t, 100);
            if At(db.faults, 0).Works? then
              && StopsAt(broker.faults, |rows|, n)
              && after.log == broker.log + Messages(db.t, rows[..Reaching(broker.faults, |rows|, n)])
              && StampedExactly(db.t, z.t, rows, n, Left(db.faults, 1), db.now)
            else z.t == db.t && after == broker
  {
    var (db1, ok) := db.Query();
    var rows := FetchUnpublished(db.t, 100);
    n := 0;
    if ok {
      n := PublishesExactly(db1, broker, rows);
      StampsExactly(db1, broker, rows, n);
    }
  }

  /** The life of the outbox: drains, new rows becoming visible in any id order,
      and the sweeper's requeues. */
  datatype Step =
    | Tick(dbFaults: seq<Fault>, brokerFaults: seq<Fault>, now: nat)
    | Insert(row: nat, sagaId: SagaId, message: Delivery)
    | Redrive(sagaId: SagaId)

  function Take(t: Tables, log: seq<Delivery>, step: Step, batch: nat): (Tables, seq<Delivery>) {
    match step
    case Tick(dbFaults, brokerFaults, now) =>
      var (db, broker) := Drain(Db(t, dbFaults, now), Broker(log, brokerFaults), batch);
      (db.t, broker.log)
    case Insert(row, sagaId, message) =>
      (if Enqueue(t, row, sagaId, message).Some? then Enqueue(t, row, sagaId, message).value else t, log)
    case Redrive(sagaId) => (Requeue(t, sagaId), log)
  }

  function TakeAll(t: Tables, log: seq<Delivery>, steps: seq<Step>, batch: nat): (Tables, seq<Delivery>)
    decreases |steps|
  {
    if steps == [] then (t, log)
    else var (t1, log1) := Take(t, log, steps[0], batch); TakeAll(t1, log1, steps[1..], batch)
  }

  ghost predicate StampedWerePublished(t: Tables, log: seq<Delivery>) {
    forall r | r in t.outbox && t.outbox[r].publishedAt.Some? :: t.outbox[r].message in log
  }

  lemma TakeKeepsStamps(t: Tables, log: seq<Delivery>, step: Step, batch: nat)
    requires StampedWerePublished(t, log)
    ensures StampedWerePublished(Take(t, log, step, batch).0, Take(t, log, step, batch).1)
  {
    if step.Tick? {
      var rows := FetchUnpublished(t, batch);
      var n := DrainPublishesPrefix(Db(t, step.dbFaults, step.now), Broker(log, step.brokerFaults), batch);
      var (u, log1) := Take(t, log, step, batch);
      forall r | r in u.outbox && u.outbox[r].publishedAt.Some? ensures u.outbox[r].message in log1 {
        if u.outbox[r] == t.outbox[r] {
          assert t.outbox[r].message in log;
        } else {
          var i :| 0 <= i < n && rows[..n][i] == r;
          assert log1[|log| + i] == t.outbox[r].message;
        }
      }
    }
  }

  /** At least once: over any run, a row with a publication stamp was published. */
  lemma {:induction false} StampMeansPublished(t: Tables, log: seq<Delivery>, steps: seq<Step>, batch: nat)
    requires StampedWerePublished(t, log)
    ensures StampedWerePublished(TakeAll(t, log, steps, batch).0, TakeAll(t, log, steps, batch).1)
    decreases |steps|
  {
    if steps != [] {
      TakeKeepsStamps(t, log, steps[0], batch);
      var (t1, log1) := Take(t, log, steps[0], batch);
      StampMeansPublished(t1, log1, steps[1..], batch);
    }
  }

  /** A batch that holds the later row holds the earlier one before it. */
  lemma BatchHasEarlier(t: Tables, batch: nat, i: nat, low: nat) returns (k: nat)
    requires i < |FetchUnpublished(t, batch)| && low in Unpublished(t) && low < FetchUnpublished(t, batch)[i]
    ensures k < i && FetchUnpublished(t, batch)[k] == low
  {
    var rows := FetchUnpublished(t, batch);
    assert rows[i] in rows;
    k :| k < |rows| && rows[k] == low;
  }

  lemma EarlierInBatch(t: Tables, batch: nat, n: nat, log: seq<Delivery>, low: nat, high: nat, at: nat)
    requires n <= |FetchUnpublished(t, batch)| && low < high && low in Unpublished(t) && high in t.outbox
    requires forall x | x in t.outbox && x != high :: t.outbox[x].message != t.outbox[high].message
    requires |log| <= at < |log| + n
    requires (log + Messages(t, FetchUnpublished(t, batch)[..n]))[at] == t.outbox[high].message
    ensures exists k :: |log| <= k < at && (log + Messages(t, FetchUnpublished(t, batch)[..n]))[k] == t.outbox[low].message
  {
    var rows, i := FetchUnpublished(t, batch), at - |log|;
    AtOffset(t, log, rows, n, i);
    assert rows[i] in t.outbox;
    var k := BatchHasEarlier(t, batch, i, low);
    AtOffset(t, log, rows, n, k);
  }

  lemma AtOffset(t: Tables, log: seq<Delivery>, rows: seq<nat>, n: nat, k: nat)
    requires k < n <= |rows| && forall i | 0 <= i < |rows| :: rows[i] in t.outbox
    ensures (log + Messages(t, rows[..n]))[|log| + k] == t.outbox[rows[k]].message
  {}

  /** Order: when both rows are visible to a fetch, the later one is published by
      that drain only after the earlier one. */
  lemma NeverOvertakes(db: Db, broker: Broker, batch: nat, low: nat, high: nat)
    requires low < high && low in Unpublished(db.t) && high in Unpublished(db.t)
    requires forall x | x in db.t.outbox && x != high :: db.t.outbox[x].message != db.t.outbox[high].message
    ensures var log := Drain(db, broker, batch).1.log;
            forall at | |broker.log| <= at < |log| && log[at] == db.t.outbox[high].message ::
              exists k :: |broker.log| <= k < at && log[k] == db.t.outbox[low].message
  {
    var log := Drain(db, broker, batch).1.log;
    var n := DrainPublishesPrefix(db, broker, batch);
    forall at | |broker.log| <= at < |log| && log[at] == db.t.outbox[high].message
      ensures exists k :: |broker.log| <= k < at && log[k] == db.t.outbox[low].message
    {
      EarlierInBatch(db.t, batch, n, broker.log, low, high, at);
    }
  }
}
