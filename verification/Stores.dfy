/** The database as the handlers meet it: every statement may work, fail without
    effect, or take effect and still report an error. A crash in the middle of a
    handler is a run in which every remaining statement fails. */
module Stores {
  import opened Model

  datatype Fault = Works | FailsClean | FailsApplied

  /** An exhausted script works. */
  function Head(faults: seq<Fault>): Fault { if faults == [] then Works else faults[0] }

  function Tail<T>(q: seq<T>): seq<T> { if q == [] then [] else q[1..] }

  /** What the statement at place `i` of the script meets. */
  function At(faults: seq<Fault>, i: nat): Fault { if i < |faults| then faults[i] else Works }

  /** The script that is left after `n` statements. */
  function Left(faults: seq<Fault>, n: nat): (rest: seq<Fault>)
    ensures forall i: nat :: At(rest, i) == At(faults, n + i)
  {
    if n < |faults| then faults[n..] else []
  }

  lemma NextPlace(faults: seq<Fault>, n: nat)
    ensures Head(Left(faults, n)) == At(faults, n) && Tail(Left(faults, n)) == Left(faults, n + 1)
  {}

  /** The statements from place `from` up to, not including, `to` work. */
  predicate AllWork(faults: seq<Fault>, from: nat, to: nat) { forall i: nat | from <= i < to :: At(faults, i).Works? }

  datatype Db = Db(t: Tables, faults: seq<Fault>, now: nat) {
    function Next(): Fault { Head(faults) }

    function Rest(): Db { this.(faults := Tail(faults)) }

    function After(effect: Option<Tables>): Db {
      if effect.Some? then Rest().(t := effect.value) else Rest()
    }

    /** One write; an effect of None is "no rows", which is an error. */
    function Exec(effect: Option<Tables>): (Db, bool) {
      match Next()
      case Works => (After(effect), effect.Some?)
      case FailsClean => (Rest(), false)
      case FailsApplied => (After(effect), false)
    }

    /** One read. */
    function Query(): (Db, bool) { (Rest(), Next().Works?) }
  }

  class Database {
    var t: Tables
    var faults: seq<Fault>
    var now: nat

    function Value(): Db reads this { Db(t, faults, now) }

    constructor (t: Tables, faults: seq<Fault>, now: nat)
      ensures Value() == Db(t, faults, now)
    {
      this.t, this.faults, this.now := t, faults, now;
    }

    method Exec(effect: Option<Tables>) returns (ok: bool)
      modifies this
      ensures (Value(), ok) == old(Value()).Exec(effect)
    {
      var fault := Value().Next();
      faults := Value().Rest().faults;
      if effect.Some? && !fault.FailsClean? { t := effect.value; }
      ok := fault.Works? && effect.Some?;
    }

    method Query() returns (ok: bool)
      modifies this
      ensures (Value(), ok) == old(Value()).Query()
    {
      ok := Value().Next().Works?;
      faults := Value().Rest().faults;
    }
  }

  class SagaStore {
    const db: Database

    constructor (db: Database)
      ensures this.db == db
    { this.db := db; }

    method GetByID(id: SagaId) returns (ok: bool, saga: Option<Saga>)
      modifies db
      ensures (db.Value(), ok) == old(db.Value()).Query()
      ensures ok ==> saga == if id in db.t.sagas then Some(db.t.sagas[id]) else None
    {
      ok := db.Query();
      saga := if id in db.t.sagas then Some(db.t.sagas[id]) else None;
    }

    method UpdateState(id: SagaId, state: SagaState, lastErr: string) returns (ok: bool)
      modifies db
      ensures (db.Value(), ok) ==
              old(db.Value()).Exec(Model.UpdateState(old(db.t), id, state, ErrorText(lastErr), old(db.now)))
    {
      ok := db.Exec(Model.UpdateState(db.t, id, state, ErrorText(lastErr), db.now));
    }

    /** ORDER BY updated_at LIMIT 100, ties broken in any way. */
    method FindResumable(before: nat) returns (ok: bool, ids: seq<SagaId>)
      modifies db
      ensures (db.Value(), ok) == old(db.Value()).Query()
      ensures IsResumable(db.t, before, ids) && |ids| <= 100
    {
      ok := db.Query();
      ids := [];
      var left := StaleSagas(db.t, before);
      while left != {} && |ids| < BATCH
        invariant db.Value() == old(db.Value()).Rest()
        invariant |ids| <= BATCH
        invariant forall i, j | 0 <= i < j < |ids| :: ids[i] != ids[j]
        invariant forall i | 0 <= i < |ids| :: Stale(db.t, before, ids[i])
        invariant forall i, j | 0 <= i < j < |ids| :: db.t.sagas[ids[i]].updatedAt <= db.t.sagas[ids[j]].updatedAt
        invariant left == set s | s in StaleSagas(db.t, before) && s !in ids
        invariant forall s, i | s in left && 0 <= i < |ids| ::
                    db.t.sagas[ids[i]].updatedAt <= db.t.sagas[s].updatedAt
        decreases |left|
      {
        OldestExists(db.t, left);
        var oldest :| oldest in left && forall s | s in left :: db.t.sagas[oldest].updatedAt <= db.t.sagas[s].updatedAt;
        ids := ids + [oldest];
        left := left - {oldest};
      }
      assert forall s | s in StaleSagas(db.t, before) && s !in ids :: s in left;
    }
  }

  function ErrorText(err: string): Option<string> { if err == "" then None else Some(err) }

  lemma OldestExists(t: Tables, ids: set<SagaId>)
    requires ids != {} && ids <= t.sagas.Keys
    ensures exists s :: s in ids && forall x | x in ids :: t.sagas[s].updatedAt <= t.sagas[x].updatedAt
  {
    var s :| s in ids;
    if ids != {s} {
      OldestExists(t, ids - {s});
      var k :| k in ids - {s} && forall x | x in ids - {s} :: t.sagas[k].updatedAt <= t.sagas[x].updatedAt;
      var least := if t.sagas[s].updatedAt <= t.sagas[k].updatedAt then s else k;
      assert forall x | x in ids :: x == s || x in ids - {s};
      assert least in ids && forall x | x in ids :: t.sagas[least].updatedAt <= t.sagas[x].updatedAt;
    }
  }

  class OutboxStore {
    const db: Database

    constructor (db: Database)
      ensures this.db == db
    { this.db := db; }

    method FetchUnpublished(limit: nat) returns (ok: bool, rows: seq<nat>)
      modifies db
      ensures (db.Value(), ok) == old(db.Value()).Query()
      ensures rows == Model.FetchUnpublished(db.t, limit)
    {
      ok := db.Query();
      rows := Model.FetchUnpublished(db.t, limit);
    }

    method MarkPublished(row: nat) returns (ok: bool)
      modifies db
      ensures (db.Value(), ok) == old(db.Value()).Exec(Some(Model.MarkPublished(old(db.t), row, old(db.now))))
    {
      ok := db.Exec(Some(Model.MarkPublished(db.t, row, db.now)));
    }

    method Requeue(saga: SagaId) returns (ok: bool)
      modifies db
      ensures (db.Value(), ok) == old(db.Value()).Exec(Some(Model.Requeue(old(db.t), saga)))
    {
      ok := db.Exec(Some(Model.Requeue(db.t, saga)));
    }
  }

  class SubscriptionStore {
    const db: Database

    constructor (db: Database)
      ensures this.db == db
    { this.db := db; }

    method MarkFailed(id: SubId) returns (ok: bool)
      modifies db
      ensures (db.Value(), ok) == old(db.Value()).Exec(Model.MarkFailed(old(db.t), id))
    {
      ok := db.Exec(Model.MarkFailed(db.t, id));
    }

    method ConfirmSubscription(token: Token) returns (ok: bool)
      modifies db
      ensures (db.Value(), ok) == old(db.Value()).Exec(Some(Model.ConfirmSubscription(old(db.t), token)))
    {
      ok := db.Exec(Some(Model.ConfirmSubscription(db.t, token)));
    }

    method DeleteSubscription(token: Token) returns (ok: bool)
      modifies db
      ensures (db.Value(), ok) == old(db.Value()).Exec(Some(Model.DeleteSubscription(old(db.t), token)))
    {
      ok := db.Exec(Some(Model.DeleteSubscription(db.t, token)));
    }

    method GetSubscriptionByToken(token: Token) returns (ok: bool, found: Option<SubId>)
      modifies db
      ensures (db.Value(), ok) == old(db.Value()).Query()
      ensures found.Some? ==> found.value in db.t.subs && db.t.subs[found.value].token == token
      ensures found.None? ==> !TokenTaken(db.t, token)
    {
      ok := db.Query();
      if i :| i in db.t.subs && db.t.subs[i].token == token { found := Some(i); } else { found := None; }
    }

    method GetSubscriptionByEmailAndRepo(email: string, repo: string) returns (ok: bool, found: Option<SubId>)
      modifies db
      ensures (db.Value(), ok) == old(db.Value()).Query()
      ensures found.Some? ==> found.value in db.t.subs && db.t.subs[found.value].email == email
      ensures found.Some? ==> db.t.subs[found.value].repo == repo
      ensures found.None? ==> !PairTaken(db.t, email, repo)
    {
      ok := db.Query();
      if i :| i in db.t.subs && db.t.subs[i].email == email && db.t.subs[i].repo == repo {
        found := Some(i);
      } else {
        found := None;
      }
    }

    /** The confirmed rows of a repo, in any order. */
    method GetSubscribersByRepo(repo: string) returns (ok: bool, rows: seq<SubId>)
      modifies db
      ensures (db.Value(), ok) == old(db.Value()).Query()
      ensures forall i :: i in rows <==> i in db.t.subs && db.t.subs[i].repo == repo && db.t.subs[i].confirmed
      ensures forall j, k | 0 <= j < k < |rows| :: rows[j] != rows[k]
    {
      ok := db.Query();
      rows := Ordered(set i | i in db.t.subs && db.t.subs[i].repo == repo && db.t.subs[i].confirmed);
    }
  }
}
