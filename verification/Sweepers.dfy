/** Sweep: one recovery pass over a snapshot of stuck sagas. */
module Sweepers {
  import opened Model
  import opened Stores
  import opened Protocol

  type Batch = seq<(SagaId, Saga)>

  function SweepOne(db: Db, id: SagaId, saga: Saga): Db {
    if saga.state.SubscriptionCreated? then
      db.Exec(Some(Requeue(db.t, id))).0
    else if saga.state.Compensating? then
      var (db1, ok) := db.Exec(MarkFailed(db.t, saga.sub));
      if ok then db1.Exec(UpdateState(db1.t, id, Failed, Some(SWEEP_REASON), db1.now)).0 else db1
    else
      db
  }

  function SweepList(db: Db, batch: Batch): Db
    decreases |batch|
  {
    if batch == [] then db else SweepList(SweepOne(db, batch[0].0, batch[0].1), batch[1..])
  }

  ghost function Snapshot(t: Tables, ids: seq<SagaId>): (batch: Batch)
    requires forall i | 0 <= i < |ids| :: ids[i] in t.sagas
  {
    seq(|ids|, i requires 0 <= i < |ids| => (ids[i], t.sagas[ids[i]]))
  }

  class Sweeper {
    const sagas: SagaStore
    const subs: SubscriptionStore
    const outbox: OutboxStore
    const staleAfter: nat

    constructor (sagas: SagaStore, subs: SubscriptionStore, outbox: OutboxStore, staleAfter: nat)
      requires sagas.db == subs.db == outbox.db
      ensures this.sagas == sagas && this.subs == subs && this.outbox == outbox && this.staleAfter == staleAfter
    { this.sagas, this.subs, this.outbox, this.staleAfter := sagas, subs, outbox, staleAfter; }

    ghost predicate Wired() { sagas.db == subs.db == outbox.db }

    /** A failure on one saga does not stop the others; only a failed snapshot
        query ends the pass. */
    method Sweep() returns (ok: bool, ghost ids: seq<SagaId>)
      requires Wired()
      modifies sagas.db
      ensures !ok ==> sagas.db.Value() == old(sagas.db.Value()).Rest()
      ensures IsResumable(old(sagas.db.t), if old(sagas.db.now) < staleAfter then 0 else old(sagas.db.now) - staleAfter, ids)
      ensures ok ==> sagas.db.Value() == SweepList(old(sagas.db.Value()).Rest(), Snapshot(old(sagas.db.t), ids))
    {
      var before := if sagas.db.now < staleAfter then 0 else sagas.db.now - staleAfter;
      var found: seq<SagaId>;
      ok, found := sagas.FindResumable(before);
      ids := found;
      if !ok { return; }
      var rows := sagas.db.t.sagas;
      ghost var batch := Snapshot(sagas.db.t, found);
      var i := 0;
      while i < |found|
        invariant 0 <= i <= |found| == |batch|
        invariant SweepList(sagas.db.Value(), batch[i..]) == SweepList(old(sagas.db.Value()).Rest(), batch)
      {
        var id, saga := found[i], rows[found[i]];
        assert batch[i..][0] == (id, saga) && batch[i..][1..] == batch[i + 1..];
        i := i + 1;
        match saga.state {
          case SubscriptionCreated =>
            var requeued := outbox.Requeue(id);
            if !requeued { continue; }
          case Compensating =>
            var marked := subs.MarkFailed(saga.sub);
            if !marked { continue; }
            var failed := sagas.UpdateState(id, Failed, SWEEP_REASON);
            if !failed { continue; }
          case Completed =>
          case Failed =>
        }
      }
      assert batch[|found|..] == [];
    }
  }

  // ------------------------------------------------------------------ theorems

  /** What a pass may change at most: a compensating saga becomes failed, its
      subscription failed, and a published row unpublished. */
  ghost predicate SweptAtMost(t: Tables, u: Tables, batch: Batch) {
    && u.sagas.Keys == t.sagas.Keys && u.subs.Keys == t.subs.Keys && u.outbox.Keys == t.outbox.Keys
    && (forall s | s in t.sagas :: u.sagas[s].sub == t.sagas[s].sub)
    && (forall s | s in t.sagas && u.sagas[s] != t.sagas[s] ::
          u.sagas[s].state.Failed? && exists k :: 0 <= k < |batch| && batch[k].0 == s && batch[k].1.state.Compensating?)
    && (forall i | i in t.subs && u.subs[i] != t.subs[i] ::
          && u.subs[i] == t.subs[i].(status := MarkedFailed)
          && exists k :: 0 <= k < |batch| && batch[k].1.sub == i && batch[k].1.state.Compensating?)
    && (forall r | r in t.outbox && u.outbox[r] != t.outbox[r] ::
          && u.outbox[r] == t.outbox[r].(publishedAt := None)
          && exists k :: 0 <= k < |batch| && batch[k].0 == t.outbox[r].sagaId && batch[k].1.state.SubscriptionCreated?)
  }

  lemma SweepOneAtMost(db: Db, id: SagaId, saga: Saga, batch: Batch)
    requires exists k :: 0 <= k < |batch| && batch[k] == (id, saga)
    ensures SweptAtMost(db.t, SweepOne(db, id, saga).t, batch)
  {
    var k :| 0 <= k < |batch| && batch[k] == (id, saga);
    SweepOneExactly(db, id, saga);
  }

  lemma SweptAtMostTransitive(t: Tables, u: Tables, v: Tables, batch: Batch)
    requires SweptAtMost(t, u, batch) && SweptAtMost(u, v, batch)
    ensures SweptAtMost(t, v, batch)
  {}

  lemma {:induction false} SweepListAtMost(db: Db, rest: Batch, batch: Batch)
    requires forall j | 0 <= j < |rest| :: rest[j] in batch
    ensures SweptAtMost(db.t, SweepList(db, rest).t, batch)
    decreases |rest|
  {
    if rest != [] {
      assert rest[0] in batch;
      SweepOneAtMost(db, rest[0].0, rest[0].1, batch);
      SweepListAtMost(SweepOne(db, rest[0].0, rest[0].1), rest[1..], batch);
      SweptAtMostTransitive(db.t, SweepOne(db, rest[0].0, rest[0].1).t, SweepList(db, rest).t, batch);
    }
  }

  /** With any snapshot, however stale, and any faults, a pass changes only what
      the snapshot entitles it to. */
  lemma SweepIsConfined(db: Db, batch: Batch)
    ensures SweptAtMost(db.t, SweepList(db, batch).t, batch)
  {
    SweepListAtMost(db, batch, batch);
  }

  // ------------------------------------------------------------ one entry, exactly

  lemma SweepOneExactly(db: Db, id: SagaId, saga: Saga)
    ensures var z := SweepOne(db, id, saga);
            var (first, second) := (At(db.faults, 0), At(db.faults, 1));
            var marks := saga.state.Compensating? && saga.sub in db.t.subs;
            && z.now == db.now && z.t.outbox.Keys == db.t.outbox.Keys
            && (forall r | r in db.t.outbox ::
                  z.t.outbox[r] == if saga.state.SubscriptionCreated? && db.t.outbox[r].sagaId == id && !first.FailsClean?
                                   then db.t.outbox[r].(publishedAt := None) else db.t.outbox[r])
            && z.t.subs == (if marks && !first.FailsClean?
                            then db.t.subs[saga.sub := db.t.subs[saga.sub].(status := MarkedFailed)] else db.t.subs)
            && z.t.sagas == (if marks && first.Works? && !second.FailsClean? && id in db.t.sagas
                             then db.t.sagas[id := db.t.sagas[id].(
                               state := Failed, lastError := Some("compensation finished by sweeper"), updatedAt := db.now)]
                             else db.t.sagas)
  {}

  lemma {:induction false} SweepAppend(db: Db, a: Batch, b: Batch)
    ensures SweepList(db, a + b) == SweepList(SweepList(db, a), b)
    decreases |a|
  {
    if a == [] {
      assert a + b == b;
    } else {
      assert (a + b)[1..] == a[1..] + b;
      SweepAppend(SweepOne(db, a[0].0, a[0].1), a[1..], b);
    }
  }

  lemma SweepAround(db: Db, batch: Batch, k: nat)
    requires k < |batch|
    ensures SweepList(db, batch) ==
            SweepList(SweepOne(SweepList(db, batch[..k]), batch[k].0, batch[k].1), batch[k + 1..])
  {
    assert batch == batch[..k] + batch[k..] && batch[k..][1..] == batch[k + 1..];
    SweepAppend(db, batch[..k], batch[k..]);
  }

  /** A pass over some entries leaves a saga that is not among them, and its rows. */
  lemma OthersLeft(db: Db, batch: Batch, id: SagaId)
    requires forall i | 0 <= i < |batch| :: batch[i].0 != id
    ensures var z := SweepList(db, batch);
            && z.t.sagas.Keys == db.t.sagas.Keys && z.t.subs.Keys == db.t.subs.Keys && z.t.outbox.Keys == db.t.outbox.Keys
            && (id in db.t.sagas ==> z.t.sagas[id] == db.t.sagas[id])
            && (forall r | r in db.t.outbox :: z.t.outbox[r].sagaId == db.t.outbox[r].sagaId)
            && (forall r | r in db.t.outbox && db.t.outbox[r].sagaId == id :: z.t.outbox[r] == db.t.outbox[r])
            && (forall i | i in db.t.subs && db.t.subs[i].status == MarkedFailed :: z.t.subs[i].status == MarkedFailed)
  {
    SweepIsConfined(db, batch);
  }

  lemma {:induction false} SweepKeepsClock(db: Db, batch: Batch)
    ensures SweepList(db, batch).now == db.now
    decreases |batch|
  {
    if batch != [] { SweepKeepsClock(SweepOne(db, batch[0].0, batch[0].1), batch[1..]); }
  }

  /** Whatever failed before it, every entry of the batch gets its turn, with the
      failures that the entries before it left in the script: a waiting saga's rows
      go back to the queue if and only if its requeue takes effect; a compensating
      saga is failed if and only if its row is there, the mark works and the update
      takes effect; and its row is marked as soon as the mark takes effect. */
  lemma SweepTriesEach(db: Db, batch: Batch, k: nat)
    requires k < |batch| && forall i, j | 0 <= i < j < |batch| :: batch[i].0 != batch[j].0
    ensures var (u, id, saga) := (SweepList(db, batch).t, batch[k].0, batch[k].1);
            var faults := SweepList(db, batch[..k]).faults;
            && u.sagas.Keys == db.t.sagas.Keys && u.outbox.Keys == db.t.outbox.Keys && u.subs.Keys == db.t.subs.Keys
            && (forall r | r in db.t.outbox && db.t.outbox[r].sagaId == id ::
                  u.outbox[r] == if saga.state.SubscriptionCreated? && !At(faults, 0).FailsClean?
                                 then db.t.outbox[r].(publishedAt := None) else db.t.outbox[r])
            && (id in db.t.sagas ==>
                  u.sagas[id] == if saga.state.Compensating? && saga.sub in db.t.subs
                                    && At(faults, 0).Works? && !At(faults, 1).FailsClean?
                                 then db.t.sagas[id].(state := Failed, updatedAt := db.now,
                                                      lastError := Some("compensation finished by sweeper"))
                                 else db.t.sagas[id])
            && (saga.state.Compensating? && saga.sub in db.t.subs && !At(faults, 0).FailsClean? ==>
                  u.subs[saga.sub].status == MarkedFailed)
  {
    var (id, saga) := batch[k];
    var before := SweepList(db, batch[..k]);
    SweepAround(db, batch, k);
    SweepKeepsClock(db, batch[..k]);
    OthersLeft(db, batch[..k], id);
    SweepOneExactly(before, id, saga);
    OthersLeft(SweepOne(before, id, saga), batch[k + 1..], id);
  }
}
