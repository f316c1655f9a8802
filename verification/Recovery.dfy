/** Recoverability: whatever crashes and losses came before, failure-free rounds
    of the handlers finish every stuck saga, at least a batch per round. */
module Recovery {
  import opened Model
  import opened Stores
  import opened Protocol
  import N = Notifiers
  import R = ReplyConsumers
  import S = Sweepers
  import Relays
  import Atomicity

  // --------------------------------------------------------------- phase 1: sweep

  ghost function SweepAll(t: Tables, ids: seq<SagaId>, now: nat): Tables
    requires forall i | 0 <= i < |ids| :: ids[i] in t.sagas
  {
    S.SweepList(Db(t, [], now), S.Snapshot(t, ids)).t
  }

  /** Every saga that is not finished has its subscription. */
  ghost predicate Live(t: Tables) {
    forall s | s in t.sagas && !Terminal(t.sagas[s].state) :: t.sagas[s].sub in t.subs
  }

  /** The saga has an outbox row that can drive it again. */
  ghost predicate HasCommand(t: Tables, s: SagaId) {
    exists r :: r in t.outbox && t.outbox[r].sagaId == s && IsSagaCommand(t.outbox[r].message) &&
                t.outbox[r].message.body.sagaId == s
  }

  /** The sweeper can do something for `s`: re-drive it, if it waits; mark its
      row, if it compensates. */
  ghost predicate Mendable(t: Tables, s: SagaId)
    requires s in t.sagas
  {
    && (t.sagas[s].state.SubscriptionCreated? ==> HasCommand(t, s))
    && (t.sagas[s].state.Compensating? ==> t.sagas[s].sub in t.subs)
  }

  /** ... and so it can for every saga outside `stuck`. */
  ghost predicate MendableBut(t: Tables, stuck: set<SagaId>) {
    forall s | s in t.sagas && s !in stuck :: Mendable(t, s)
  }

  /** Sagas only lose their unfinished state; identities, subscriptions' ids and
      messages stay. */
  ghost predicate Advances(t: Tables, u: Tables) {
    && u.sagas.Keys == t.sagas.Keys && u.subs.Keys == t.subs.Keys && u.outbox.Keys == t.outbox.Keys
    && (forall r | r in t.outbox :: u.outbox[r].sagaId == t.outbox[r].sagaId && u.outbox[r].message == t.outbox[r].message)
    && (forall s | s in t.sagas :: u.sagas[s] == t.sagas[s] || Terminal(u.sagas[s].state))
    && (forall s | s in t.sagas && Terminal(t.sagas[s].state) :: Terminal(u.sagas[s].state))
  }

  lemma AdvancesTransitive(t: Tables, u: Tables, v: Tables)
    requires Advances(t, u) && Advances(u, v)
    ensures Advances(t, v)
  {}

  lemma CommandStays(t: Tables, u: Tables, s: SagaId)
    requires HasCommand(t, s) && Advances(t, u)
    ensures HasCommand(u, s)
  {
    var r :| r in t.outbox && t.outbox[r].sagaId == s && IsSagaCommand(t.outbox[r].message) &&
             t.outbox[r].message.body.sagaId == s;
    assert r in u.outbox && u.outbox[r].message == t.outbox[r].message;
  }

  lemma MendableStays(t: Tables, u: Tables, stuck: set<SagaId>)
    requires MendableBut(t, stuck) && Advances(t, u)
    ensures MendableBut(u, stuck)
  {
    forall s | s in u.sagas && s !in stuck ensures Mendable(u, s) {
      assert Mendable(t, s);
      if u.sagas[s].state.SubscriptionCreated? { CommandStays(t, u, s); }
    }
  }

  /** The saga is finished, or waits with its row ready to be published. */
  ghost predicate Driven(t: Tables, s: SagaId) {
    && s in t.sagas
    && (Terminal(t.sagas[s].state) ||
        (t.sagas[s].state.SubscriptionCreated? && forall r | r in t.outbox && t.outbox[r].sagaId == s :: r in Unpublished(t)))
  }

  /** Its compensation, if that is what it needs, finds its row. */
  predicate Markable(t: Tables, s: SagaId)
    requires s in t.sagas
  {
    t.sagas[s].state.Compensating? ==> t.sagas[s].sub in t.subs
  }

  lemma SweepOneDrives(t: Tables, s: SagaId, now: nat)
    requires s in t.sagas && !Terminal(t.sagas[s].state)
    ensures var u := S.SweepOne(Db(t, [], now), s, t.sagas[s]);
            && u == Db(u.t, [], now) && Advances(t, u.t) && (Markable(t, s) ==> Driven(u.t, s))
            && (forall x | x in t.sagas && x != s :: u.t.sagas[x] == t.sagas[x])
            && (forall x | Driven(t, x) :: Driven(u.t, x))
  {
    RequeuedReturns(t, s);
  }

  lemma SnapshotCons(t: Tables, ids: seq<SagaId>)
    requires ids != [] && forall i | 0 <= i < |ids| :: ids[i] in t.sagas
    ensures S.Snapshot(t, ids) != [] && S.Snapshot(t, ids)[0] == (ids[0], t.sagas[ids[0]])
    ensures S.Snapshot(t, ids)[1..] == S.Snapshot(t, ids[1..])
  {}

  /** `ids` names unfinished sagas that `u` still has as the snapshot `t` says. */
  ghost predicate Current(t: Tables, u: Tables, ids: seq<SagaId>) {
    && Distinct(ids) && Advances(t, u)
    && forall i | 0 <= i < |ids| :: ids[i] in t.sagas && !Terminal(t.sagas[ids[i]].state) && u.sagas[ids[i]] == t.sagas[ids[i]]
  }

  /** After the head, the rest of the batch is still as the snapshot says. */
  lemma SweepHeadDrives(t: Tables, u: Tables, ids: seq<SagaId>, now: nat) returns (u1: Tables)
    requires ids != [] && Current(t, u, ids)
    ensures S.SweepOne(Db(u, [], now), ids[0], t.sagas[ids[0]]) == Db(u1, [], now)
    ensures Advances(u, u1) && (Markable(t, ids[0]) ==> Driven(u1, ids[0])) && Current(t, u1, ids[1..])
    ensures forall x | Driven(u, x) :: Driven(u1, x)
  {
    SweepOneDrives(u, ids[0], now);
    u1 := S.SweepOne(Db(u, [], now), ids[0], t.sagas[ids[0]]).t;
    AdvancesTransitive(t, u, u1);
    forall i | 0 <= i < |ids[1..]|
      ensures ids[1..][i] in t.sagas && !Terminal(t.sagas[ids[1..][i]].state) && u1.sagas[ids[1..][i]] == t.sagas[ids[1..][i]]
    {
      assert ids[1..][i] == ids[i + 1] && ids[i + 1] != ids[0];
    }
  }

  lemma {:induction false} SweepDrives(t: Tables, u: Tables, ids: seq<SagaId>, now: nat)
    requires Current(t, u, ids)
    ensures var v := S.SweepList(Db(u, [], now), S.Snapshot(t, ids)).t;
            && Advances(u, v)
            && (forall i | 0 <= i < |ids| && Markable(t, ids[i]) :: Driven(v, ids[i]))
            && (forall x | Driven(u, x) :: Driven(v, x))
    decreases |ids|
  {
    if ids != [] {
      SnapshotCons(t, ids);
      var u1 := SweepHeadDrives(t, u, ids, now);
      SweepDrives(t, u1, ids[1..], now);
      DrivenJoin(t, u, u1, S.SweepList(Db(u1, [], now), S.Snapshot(t, ids[1..])).t, ids);
    }
  }

  lemma DrivenJoin(t: Tables, u: Tables, u1: Tables, v: Tables, ids: seq<SagaId>)
    requires ids != [] && Advances(u, u1) && Advances(u1, v)
    requires forall i | 0 <= i < |ids| :: ids[i] in t.sagas
    requires Markable(t, ids[0]) ==> Driven(u1, ids[0])
    requires forall i | 0 <= i < |ids[1..]| && Markable(t, ids[1..][i]) :: Driven(v, ids[1..][i])
    requires (forall x | Driven(u, x) :: Driven(u1, x)) && (forall x | Driven(u1, x) :: Driven(v, x))
    ensures Advances(u, v) && (forall i | 0 <= i < |ids| && Markable(t, ids[i]) :: Driven(v, ids[i]))
    ensures forall x | Driven(u, x) :: Driven(v, x)
  {
    AdvancesTransitive(u, u1, v);
    forall i | 0 <= i < |ids| && Markable(t, ids[i]) ensures Driven(v, ids[i]) {
      if i > 0 { assert ids[i] == ids[1..][i - 1]; }
    }
  }

  // --------------------------------------------------------------- phase 2: drain

  lemma {:induction false} CleanDrainStampsAll(t: Tables, log: seq<Delivery>, rows: seq<nat>, now: nat)
    requires forall i | 0 <= i < |rows| :: rows[i] in t.outbox
    ensures var (db, broker) := Relays.DrainRows(Db(t, [], now), Relays.Broker(log, []), rows);
            && broker.log == log + Relays.Messages(t, rows)
            && Relays.StampedWithin(t, db.t, rows)
            && (forall i | 0 <= i < |rows| :: db.t.outbox[rows[i]].publishedAt.Some?)
    decreases |rows|
  {
    if rows != [] {
      var (db1, broker1, ok) := Relays.PublishRow(Db(t, [], now), Relays.Broker(log, []), rows[0]);
      Relays.PublishRowEffect(Db(t, [], now), Relays.Broker(log, []), rows[0]);
      assert ok && broker1 == Relays.Broker(log + [t.outbox[rows[0]].message], []) && db1 == Db(db1.t, [], now);
      CleanDrainStampsAll(db1.t, broker1.log, rows[1..], now);
      assert [rows[0]] + rows[1..] == rows;
      Relays.PrefixCons(t, db1.t, Relays.DrainRows(db1, broker1, rows[1..]).0.t, rows[0], rows[1..]);
      Relays.Associates(log, t.outbox[rows[0]].message, Relays.Messages(db1.t, rows[1..]));
      assert db1.t.outbox[rows[0]].publishedAt.Some?;
    }
  }

  /** Exactly the drained rows leave the queue. */
  lemma {:induction false} CleanDrainEmpties(t: Tables, log: seq<Delivery>, rows: seq<nat>, now: nat)
    requires forall i | 0 <= i < |rows| :: rows[i] in t.outbox
    ensures Unpublished(Relays.DrainRows(Db(t, [], now), Relays.Broker(log, []), rows).0.t) == Unpublished(t) - (set r | r in rows)
    decreases |rows|
  {
    if rows != [] {
      var (db1, broker1, ok) := Relays.PublishRow(Db(t, [], now), Relays.Broker(log, []), rows[0]);
      assert ok && db1 == Db(MarkPublished(t, rows[0], now), [], now);
      StampedLeavesQueue(t, rows[0], now);
      CleanDrainEmpties(db1.t, broker1.log, rows[1..], now);
      assert broker1.faults == [];
      assert (set r | r in rows) == {rows[0]} + (set r | r in rows[1..]);
    }
  }

  lemma CleanDrain(t: Tables, log: seq<Delivery>, now: nat)
    ensures var (db, broker) := Relays.Drain(Db(t, [], now), Relays.Broker(log, []), BATCH);
            && broker.log == log + Relays.Messages(t, FetchUnpublished(t, BATCH))
            && Relays.StampedWithin(t, db.t, FetchUnpublished(t, BATCH))
            && (forall r | r in FetchUnpublished(t, BATCH) :: db.t.outbox[r].publishedAt.Some?)
            && Unpublished(db.t) == Unpublished(t) - (set r | r in FetchUnpublished(t, BATCH))
            && (Unpublished(t) != {} ==> |Unpublished(db.t)| < |Unpublished(t)|)
  {
    var rows := FetchUnpublished(t, BATCH);
    CleanDrainStampsAll(t, log, rows, now);
    CleanDrainEmpties(t, log, rows, now);
    var u := Relays.Drain(Db(t, [], now), Relays.Broker(log, []), BATCH).0.t;
    if Unpublished(t) != {} {
      assert Unpublished(u) <= Unpublished(t) && rows[0] in Unpublished(t) && rows[0] !in Unpublished(u);
      SubsetSize(Unpublished(u), Unpublished(t));
    }
  }

  /** Drain tick after tick until nothing is left to publish. */
  function DrainAll(t: Tables, log: seq<Delivery>, now: nat): (Tables, seq<Delivery>)
    decreases |Unpublished(t)|
  {
    if Unpublished(t) == {} then (t, log)
    else
      CleanDrain(t, log, now);
      var (db, broker) := Relays.Drain(Db(t, [], now), Relays.Broker(log, []), BATCH);
      DrainAll(db.t, broker.log, now)
  }

  lemma DrainPublishesOrKeeps(t: Tables, log: seq<Delivery>, now: nat, r: nat)
    requires r in Unpublished(t)
    ensures var (db, broker) := Relays.Drain(Db(t, [], now), Relays.Broker(log, []), BATCH);
            t.outbox[r].message in broker.log || (r in Unpublished(db.t) && db.t.outbox[r].message == t.outbox[r].message)
  {
    CleanDrain(t, log, now);
    var rows := FetchUnpublished(t, BATCH);
    if r in rows { RowIsLogged(t, log, rows, r); }
  }

  lemma RowIsLogged(t: Tables, log: seq<Delivery>, rows: seq<nat>, r: nat)
    requires r in rows && forall i | 0 <= i < |rows| :: rows[i] in t.outbox
    ensures t.outbox[r].message in log + Relays.Messages(t, rows)
  {
    var i :| 0 <= i < |rows| && rows[i] == r;
    assert (log + Relays.Messages(t, rows))[|log| + i] == t.outbox[r].message;
  }

  lemma {:induction false} DrainAllPublishes(t: Tables, log: seq<Delivery>, now: nat)
    ensures var (u, log1) := DrainAll(t, log, now);
            && u.sagas == t.sagas && u.subs == t.subs && Advances(t, u)
            && (forall r | r in Unpublished(t) :: t.outbox[r].message in log1)
            && (forall d | d in log :: d in log1)
    decreases |Unpublished(t)|
  {
    if Unpublished(t) != {} {
      CleanDrain(t, log, now);
      var (db, broker) := Relays.Drain(Db(t, [], now), Relays.Broker(log, []), BATCH);
      DrainAllPublishes(db.t, broker.log, now);
      forall r | r in Unpublished(t) ensures t.outbox[r].message in DrainAll(t, log, now).1 {
        DrainPublishesOrKeeps(t, log, now, r);
      }
      AdvancesTransitive(t, db.t, DrainAll(t, log, now).0);
    }
  }

  // ------------------------------------------------------------- phase 3: notifier

  function ConsumeAll(e: N.Env, commands: seq<Delivery>): N.Env
    decreases |commands|
  {
    if commands == [] then e else ConsumeAll(N.Handle(e, commands[0], N.MAX_ATTEMPTS).0, commands[1..])
  }

  /** Redis and the broker work; mails may fail as they like. */
  predicate Calm(e: N.Env) { e.redis == [] && e.broker == [] }

  predicate Answered(replies: seq<Reply>, s: SagaId) {
    Reply(s, Sent) in replies || Reply(s, NotSent) in replies
  }

  lemma HandleAnswers(e: N.Env, d: Delivery)
    requires Calm(e)
    ensures var z := N.Handle(e, d, N.MAX_ATTEMPTS).0;
            && Calm(z) && e.replies <= z.replies
            && (IsSagaCommand(d) ==> Answered(z.replies, d.body.sagaId))
  {
    DispatchAnswers(e, d);
    var z := N.Handle(e, d, N.MAX_ATTEMPTS).0;
    if IsSagaCommand(d) {
      var r := z.replies[|e.replies|];
      assert z.replies == e.replies + [r] && r in z.replies;
    }
  }

  lemma DispatchAnswers(e: N.Env, d: Delivery)
    requires Calm(e)
    ensures var z := N.Dispatch(e, d, N.MAX_ATTEMPTS).0;
            && Calm(z) && e.replies <= z.replies
            && (IsSagaCommand(d) ==> z.replies == e.replies + [Reply(d.body.sagaId, Sent)] ||
                                     z.replies == e.replies + [Reply(d.body.sagaId, NotSent)])
  {
    N.RetriesAcceptOnce(e, d, N.MAX_ATTEMPTS, N.MAX_ATTEMPTS);
  }

  lemma {:induction false} ConsumeAllAnswers(e: N.Env, commands: seq<Delivery>)
    requires Calm(e)
    ensures e.replies <= ConsumeAll(e, commands).replies
    ensures forall d | d in commands && IsSagaCommand(d) :: Answered(ConsumeAll(e, commands).replies, d.body.sagaId)
    decreases |commands|
  {
    if commands != [] {
      HandleAnswers(e, commands[0]);
      var z := N.Handle(e, commands[0], N.MAX_ATTEMPTS).0;
      ConsumeAllAnswers(z, commands[1..]);
      assert forall r | r in z.replies :: r in ConsumeAll(z, commands[1..]).replies;
    }
  }

  /** No "failed" reply is queued, and the next `n` mails will be accepted. */
  ghost predicate Cheerful(e: N.Env, n: nat) {
    && Calm(e) && |e.smtp| >= n && (forall i | 0 <= i < |e.smtp| :: e.smtp[i])
    && forall r | r in e.replies :: !r.status.NotSent?
  }

  lemma HandleCheers(e: N.Env, d: Delivery, n: nat)
    requires Cheerful(e, n + 1)
    ensures Cheerful(N.Handle(e, d, N.MAX_ATTEMPTS).0, n)
  {
    DispatchCheers(e, d, n);
  }

  lemma DispatchCheers(e: N.Env, d: Delivery, n: nat)
    requires Cheerful(e, n + 1)
    ensures Cheerful(N.Dispatch(e, d, N.MAX_ATTEMPTS).0, n) && N.Dispatch(e, d, N.MAX_ATTEMPTS).0.redis == []
  {
    assert N.Attempts(e, d, N.MAX_ATTEMPTS, N.MAX_ATTEMPTS) == N.Attempt(e, d);
  }

  lemma {:induction false} ConsumeAllCheers(e: N.Env, commands: seq<Delivery>)
    requires Cheerful(e, |commands|)
    ensures Cheerful(ConsumeAll(e, commands), 0)
    decreases |commands|
  {
    if commands != [] {
      HandleCheers(e, commands[0], |commands| - 1);
      ConsumeAllCheers(N.Handle(e, commands[0], N.MAX_ATTEMPTS).0, commands[1..]);
    }
  }

  // -------------------------------------------------------- phase 4: reply consumer

  function HandleReplies(t: Tables, replies: seq<Reply>, now: nat): Tables
    decreases |replies|
  {
    if replies == [] then t else HandleReplies(R.Clean(t, replies[0], now).0, replies[1..], now)
  }

  /** No "failed" reply meets an unfinished saga whose subscription is gone. */
  ghost predicate Gentle(t: Tables, replies: seq<Reply>) {
    forall s | s in t.sagas && !Terminal(t.sagas[s].state) && t.sagas[s].sub !in t.subs :: Reply(s, NotSent) !in replies
  }

  lemma CleanAdvances(t: Tables, r: Reply, now: nat)
    requires Gentle(t, [r])
    ensures var u := R.Clean(t, r, now).0;
            && Advances(t, u)
            && (r.sagaId in t.sagas && !r.status.UnknownStatus? && !t.sagas[r.sagaId].state.Compensating? ==>
                  Terminal(u.sagas[r.sagaId].state))
  {
    assert r in [r];
  }

  lemma GentleStays(t: Tables, u: Tables, replies: seq<Reply>)
    requires replies != [] && Gentle(t, replies) && Advances(t, u)
    ensures Gentle(t, [replies[0]]) && Gentle(u, replies[1..])
  {
    assert forall r | r in replies[1..] :: r in replies;
  }

  lemma {:induction false} RepliesFinish(t: Tables, replies: seq<Reply>, now: nat)
    requires Gentle(t, replies)
    ensures Advances(t, HandleReplies(t, replies, now))
    ensures forall s | s in t.sagas && !t.sagas[s].state.Compensating? && Answered(replies, s) ::
              Terminal(HandleReplies(t, replies, now).sagas[s].state)
    decreases |replies|
  {
    if replies != [] {
      var u := R.Clean(t, replies[0], now).0;
      assert Gentle(t, [replies[0]]);
      CleanAdvances(t, replies[0], now);
      GentleStays(t, u, replies);
      RepliesFinish(u, replies[1..], now);
      AdvancesTransitive(t, u, HandleReplies(u, replies[1..], now));
      forall s | s in t.sagas && !t.sagas[s].state.Compensating? && Answered(replies, s)
        ensures Terminal(HandleReplies(t, replies, now).sagas[s].state)
      {
        AnswerIsHandled(t, u, replies, s);
      }
    }
  }

  lemma AnswerIsHandled(t: Tables, u: Tables, replies: seq<Reply>, s: SagaId)
    requires replies != [] && Advances(t, u) && s in t.sagas && !t.sagas[s].state.Compensating? && Answered(replies, s)
    requires replies[0].sagaId == s && !replies[0].status.UnknownStatus? ==> Terminal(u.sagas[s].state)
    ensures Terminal(u.sagas[s].state) || (!u.sagas[s].state.Compensating? && Answered(replies[1..], s))
  {
    assert replies == [replies[0]] + replies[1..];
  }

  // -------------------------------------------------------------------- the round

  /** What one round meets: the sweeper's threshold and batch, whatever is still
      queued, and the notifier's surroundings. */
  datatype Round = Round(before: nat, ids: seq<SagaId>, commands: seq<Delivery>, e: N.Env, now: nat)

  ghost predicate Possible(t: Tables, r: Round) {
    IsResumable(t, r.before, r.ids) && Calm(r.e)
  }

  ghost function Drained(t: Tables, r: Round): (Tables, seq<Delivery>)
    requires Possible(t, r)
  {
    DrainAll(SweepAll(t, r.ids, r.now), r.commands, r.now)
  }

  ghost function Replies(t: Tables, r: Round): seq<Reply>
    requires Possible(t, r)
  {
    ConsumeAll(r.e, Drained(t, r).1).replies
  }

  /** Sweep, drain until empty, consume every command, consume every reply. */
  ghost function After(t: Tables, r: Round): Tables
    requires Possible(t, r)
  {
    HandleReplies(Drained(t, r).0, Replies(t, r), r.now)
  }

  lemma ResumableIsCurrent(t: Tables, before: nat, ids: seq<SagaId>)
    requires IsResumable(t, before, ids)
    ensures Current(t, t, ids)
  {
    forall i | 0 <= i < |ids| ensures ids[i] in t.sagas && !Terminal(t.sagas[ids[i]].state) { assert Stale(t, before, ids[i]); }
  }

  /** The first three phases: everything is published, and the batch is finished
      or answered. */
  lemma RoundAnswers(t: Tables, r: Round)
    requires Possible(t, r)
    ensures Advances(t, Drained(t, r).0)
    ensures forall i | 0 <= i < |r.ids| ::
              r.ids[i] in t.sagas && (Mendable(t, r.ids[i]) ==> Ready(Drained(t, r).0, Replies(t, r), r.ids[i]))
  {
    ResumableIsCurrent(t, r.before, r.ids);
    SweepDrives(t, t, r.ids, r.now);
    var swept := SweepAll(t, r.ids, r.now);
    DrainAllPublishes(swept, r.commands, r.now);
    var (drained, commands) := Drained(t, r);
    AdvancesTransitive(t, swept, drained);
    ConsumeAllAnswers(r.e, commands);
    forall i | 0 <= i < |r.ids| && Mendable(t, r.ids[i]) ensures Ready(drained, Replies(t, r), r.ids[i]) {
      assert Driven(swept, r.ids[i]);
      if !Terminal(swept.sagas[r.ids[i]].state) { DrivenIsAnswered(t, swept, commands, r, r.ids[i]); }
    }
  }

  /** Finished, or waiting with an answer on its way. */
  ghost predicate Ready(t: Tables, replies: seq<Reply>, s: SagaId) {
    s in t.sagas && (Terminal(t.sagas[s].state) || (t.sagas[s].state.SubscriptionCreated? && Answered(replies, s)))
  }

  lemma DrivenIsAnswered(t: Tables, swept: Tables, commands: seq<Delivery>, r: Round, s: SagaId)
    requires Possible(t, r) && Advances(t, swept) && s in t.sagas && Mendable(t, s)
    requires Driven(swept, s) && !Terminal(swept.sagas[s].state)
    requires forall row | row in Unpublished(swept) :: swept.outbox[row].message in commands
    requires forall d | d in commands && IsSagaCommand(d) :: Answered(ConsumeAll(r.e, commands).replies, d.body.sagaId)
    ensures Answered(ConsumeAll(r.e, commands).replies, s)
  {
    assert swept.sagas[s] == t.sagas[s];
    CommandStays(t, swept, s);
    var row :| row in swept.outbox && swept.outbox[row].sagaId == s && IsSagaCommand(swept.outbox[row].message) &&
               swept.outbox[row].message.body.sagaId == s;
    assert row in Unpublished(swept) && swept.outbox[row].message in commands;
  }

  /** When no "failed" reply can hit a saga without its subscription: each
      unfinished saga of the sweeper's batch for which it can do something is
      finished by the round, whatever stands beside it, and no saga is disturbed. */
  lemma RoundFinishesBatch(t: Tables, r: Round)
    requires Possible(t, r) && Gentle(Drained(t, r).0, Replies(t, r))
    ensures Advances(t, After(t, r))
    ensures forall i | 0 <= i < |r.ids| ::
              r.ids[i] in t.sagas && (Mendable(t, r.ids[i]) ==> Terminal(After(t, r).sagas[r.ids[i]].state))
  {
    RoundAnswers(t, r);
    RepliesFinish(Drained(t, r).0, Replies(t, r), r.now);
    AdvancesTransitive(t, Drained(t, r).0, After(t, r));
    forall i | 0 <= i < |r.ids| && Mendable(t, r.ids[i]) ensures Terminal(After(t, r).sagas[r.ids[i]].state) {
      assert Ready(Drained(t, r).0, Replies(t, r), r.ids[i]);
    }
  }

  /** With every subscription in place no reply does harm ... */
  lemma LiveIsGentle(t: Tables, r: Round)
    requires Live(t) && Possible(t, r)
    ensures Gentle(Drained(t, r).0, Replies(t, r))
  {
    RoundAnswers(t, r);
  }

  /** ... and neither when the mails go out. */
  lemma CheerfulIsGentle(t: Tables, r: Round)
    requires Possible(t, r) && Cheerful(r.e, |Drained(t, r).1|)
    ensures Gentle(Drained(t, r).0, Replies(t, r))
  {
    ConsumeAllCheers(r.e, Drained(t, r).1);
  }

  /** A batch of the oldest contains a full batch of any older threshold. */
  lemma BatchCoversOldest(t: Tables, before: nat, ids: seq<SagaId>, b: nat)
    requires IsResumable(t, before, ids) && b <= before
    ensures StaleSagas(t, b) <= (set s | s in ids) || (|ids| == BATCH && (set s | s in ids) <= StaleSagas(t, b))
  {
    if s :| s in StaleSagas(t, b) && s !in ids {
      assert s in StaleSagas(t, before);
      forall x | x in ids ensures x in StaleSagas(t, b) {
        var i :| 0 <= i < |ids| && ids[i] == x;
        assert Stale(t, before, ids[i]);
      }
    }
  }

  /** What `rounds` passes of `size` each leave of `n`. */
  function Remaining(n: nat, size: nat, rounds: nat): nat
    decreases rounds
  {
    if rounds == 0 then n else Remaining(if n <= size then 0 else n - size, size, rounds - 1)
  }

  lemma {:induction false} EnoughRounds(n: nat, size: nat, rounds: nat)
    requires n <= size * rounds
    ensures Remaining(n, size, rounds) == 0
    decreases rounds
  {
    if rounds > 0 {
      assert size * rounds == size + size * (rounds - 1);
      EnoughRounds(if n <= size then 0 else n - size, size, rounds - 1);
    }
  }

  /** Beside `stuck`, a round leaves at most n - (100 - |stuck|) of the n other
      sagas that were stale at `b`. */
  lemma RoundShrinks(t: Tables, r: Round, b: nat, stuck: set<SagaId>)
    requires Possible(t, r) && Gentle(Drained(t, r).0, Replies(t, r)) && b <= r.before
    requires MendableBut(t, stuck) && |stuck| <= BATCH
    ensures |StaleSagas(After(t, r), b) - stuck| <= Remaining(|StaleSagas(t, b) - stuck|, BATCH - |stuck|, 1)
  {
    RoundFinishesBatch(t, r);
    var batch := set s | s in r.ids;
    var before, left := StaleSagas(t, b) - stuck, StaleSagas(After(t, r), b) - stuck;
    forall s | s in batch - stuck ensures Terminal(After(t, r).sagas[s].state) {
      var i :| 0 <= i < |r.ids| && r.ids[i] == s;
      assert Mendable(t, s);
    }
    assert left <= before - (batch - stuck);
    BatchCoversOldest(t, r.before, r.ids, b);
    DistinctSize(r.ids, batch);
    if StaleSagas(t, b) <= batch {
      assert left == {};
    } else {
      BatchBesideStuck(before, batch, stuck);
      SubsetSize(left, before - (batch - stuck));
    }
  }

  lemma BatchBesideStuck(before: set<SagaId>, batch: set<SagaId>, stuck: set<SagaId>)
    requires batch - stuck <= before && |batch| == BATCH && |stuck| <= BATCH
    ensures |before - (batch - stuck)| <= |before| - (BATCH - |stuck|)
  {
    assert |batch| == |batch - stuck| + |batch * stuck|;
    SubsetSize(batch * stuck, stuck);
    assert |before| == |batch - stuck| + |before - (batch - stuck)|;
  }

  ghost predicate AllPossible(t: Tables, rounds: seq<Round>, b: nat)
    decreases |rounds|
  {
    rounds == [] || (Possible(t, rounds[0]) && b <= rounds[0].before && AllPossible(After(t, rounds[0]), rounds[1..], b))
  }

  ghost function AfterAll(t: Tables, rounds: seq<Round>, b: nat): Tables
    requires AllPossible(t, rounds, b)
    decreases |rounds|
  {
    if rounds == [] then t else AfterAll(After(t, rounds[0]), rounds[1..], b)
  }

  /** Stale sagas outside `stuck`. */
  function Others(t: Tables, b: nat, stuck: set<SagaId>): nat { |StaleSagas(t, b) - stuck| }

  lemma {:induction false} RoundsShrink(t: Tables, rounds: seq<Round>, b: nat, stuck: set<SagaId>, n: nat)
    requires Live(t) && MendableBut(t, stuck) && |stuck| <= BATCH && AllPossible(t, rounds, b)
    requires Others(t, b, stuck) <= n
    ensures Others(AfterAll(t, rounds, b), b, stuck) <= Remaining(n, BATCH - |stuck|, |rounds|)
    decreases |rounds|
  {
    if rounds == [] {
      assert AfterAll(t, rounds, b) == t;
      assert Remaining(n, BATCH - |stuck|, |rounds|) == n;
      assert Others(AfterAll(t, rounds, b), b, stuck) <= n;
    } else {
      var u := FirstRound(t, rounds, b, stuck, n);
      RoundsShrink(u, rounds[1..], b, stuck, Remaining(n, BATCH - |stuck|, 1));
      RemainingUnfolds(n, BATCH - |stuck|, rounds);
      assert Others(AfterAll(u, rounds[1..], b), b, stuck) <= Remaining(n, BATCH - |stuck|, |rounds|);
      assert Others(AfterAll(t, rounds, b), b, stuck) <= Remaining(n, BATCH - |stuck|, |rounds|);
    }
  }

  lemma RemainingUnfolds(n: nat, size: nat, rounds: seq<Round>)
    requires rounds != []
    ensures Remaining(Remaining(n, size, 1), size, |rounds[1..]|) == Remaining(n, size, |rounds|)
  {}

  /** The first of several rounds, its tables left abstract. */
  lemma FirstRound(t: Tables, rounds: seq<Round>, b: nat, stuck: set<SagaId>, n: nat) returns (u: Tables)
    requires Live(t) && MendableBut(t, stuck) && |stuck| <= BATCH && rounds != [] && AllPossible(t, rounds, b)
    requires Others(t, b, stuck) <= n
    ensures Live(u) && MendableBut(u, stuck) && AllPossible(u, rounds[1..], b)
    ensures AfterAll(t, rounds, b) == AfterAll(u, rounds[1..], b)
    ensures Others(u, b, stuck) <= Remaining(n, BATCH - |stuck|, 1)
  {
    var r := rounds[0];
    u := After(t, r);
    LiveIsGentle(t, r);
    RoundShrinks(t, r, b, stuck);
    RoundFinishesBatch(t, r);
    MendableStays(t, u, stuck);
  }

  /** The gRPC sagas that wait for their callers. */
  ghost function AwaitingCallers(w: World): set<SagaId> {
    set s | s in w.t.sagas && s in w.ids.grpc && w.t.sagas[s].state.SubscriptionCreated?
  }

  /** No waiting broker saga is ever without the outbox row that can re-drive it. */
  lemma InvHasCommands(w: World, s: SagaId)
    requires Atomicity.Inv(w) && s in w.t.sagas && s !in w.ids.grpc
    ensures HasCommand(w.t, s)
  {
    assert Atomicity.RowOfSaga(w, s);
    assert w.ids.rowOf[s] in w.t.outbox;
  }

  /** In every execution, over both transports, each saga that has its subscription
      can be mended, except the gRPC ones that wait for their callers. */
  lemma ReachableIsMendable(actions: seq<Action>, w: World, s: SagaId)
    requires Run(Init(), actions, w) && s in w.t.sagas && w.t.sagas[s].sub in w.t.subs && s !in AwaitingCallers(w)
    ensures Mendable(w.t, s)
  {
    Atomicity.RunKeepsInv(Init(), actions, w);
    if s !in w.ids.grpc { InvHasCommands(w, s); }
  }

  /** Recoverability: from every state an execution reaches, with any messages
      queued, failure-free rounds finish the n sagas that are stale then, 100 - k
      in each, where k gRPC sagas wait for their callers, provided no unfinished
      saga lost its subscription. With none waiting, ceil(n / 100) rounds do. */
  lemma RoundsFinishAll(actions: seq<Action>, w: World, rounds: seq<Round>, b: nat)
    requires Run(Init(), actions, w) && Live(w.t) && AllPossible(w.t, rounds, b)
    requires var stuck := AwaitingCallers(w);
             |stuck| <= BATCH && |StaleSagas(w.t, b) - stuck| <= (BATCH - |stuck|) * |rounds|
    ensures StaleSagas(AfterAll(w.t, rounds, b), b) <= AwaitingCallers(w)
  {
    var stuck := AwaitingCallers(w);
    forall s | s in w.t.sagas && s !in stuck ensures Mendable(w.t, s) {
      if !Terminal(w.t.sagas[s].state) { ReachableIsMendable(actions, w, s); }
    }
    RoundsShrink(w.t, rounds, b, stuck, |StaleSagas(w.t, b) - stuck|);
    EnoughRounds(|StaleSagas(w.t, b) - stuck|, BATCH - |stuck|, |rounds|);
    var left := StaleSagas(AfterAll(w.t, rounds, b), b);
    forall s | s in left ensures s in stuck { assert left - stuck == {} && (s in stuck || s in left - stuck); }
  }
}
