/** The subscription service: what each request does to the tables and what it
    answers, the races between requests, and retries after failures. */
module Subscriptions {
  import opened Model
  import opened Stores
  import opened Identifiers
  import O = Orchestrators
  import T = Scanners
  import P = Protocol
  import Atomicity

  /** A request with what its collaborators will answer: the email pattern,
      GitHub (None is an error), and the identifiers drawn for it. */
  datatype Request = Request(
    email: string, repo: string, emailOk: bool, github: Option<bool>,
    newSub: SubId, token: Token, saga: SagaId, row: nat)

  datatype Outcome =
    | InvalidEmail | InvalidRepoFormat | CheckFailed | RepoNotFound
    | DatabaseError | AlreadySubscribed | SagaFailed | Accepted

  datatype Decision = Reject(outcome: Outcome) | Launch(sub: SubId, reactivate: bool)

  datatype LinkOutcome = LookupFailed | TokenNotFound | WriteFailed | TrackFailed | Done

  datatype Subscriber = Subscriber(id: SubId, email: string, token: Token)

  // ---------------------------------------------------------------- specification

  predicate HasPair(s: Subscription, email: string, repo: string) { s.email == email && s.repo == repo }

  /** UNIQUE (email, repo) and UNIQUE (token). */
  ghost predicate Constraints(t: Tables) {
    && (forall i, j | i in t.subs && j in t.subs && i != j :: !HasPair(t.subs[i], t.subs[j].email, t.subs[j].repo))
    && (forall i, j | i in t.subs && j in t.subs && i != j :: t.subs[i].token != t.subs[j].token)
  }

  ghost function FindPair(t: Tables, email: string, repo: string): (found: Option<SubId>)
    ensures found.Some? ==> found.value in t.subs && HasPair(t.subs[found.value], email, repo)
    ensures found.None? ==> !PairTaken(t, email, repo)
  {
    if i :| i in t.subs && HasPair(t.subs[i], email, repo) then Some(i) else None
  }

  ghost function FindToken(t: Tables, token: Token): (found: Option<SubId>)
    ensures found.Some? ==> found.value in t.subs && t.subs[found.value].token == token
    ensures found.None? ==> !TokenTaken(t, token)
  {
    if i :| i in t.subs && t.subs[i].token == token then Some(i) else None
  }

  ghost function Decide(db: Db, r: Request): (Db, Decision) {
    if !r.emailOk then (db, Reject(InvalidEmail))
    else if ParseRepoSpec(r.repo).None? then (db, Reject(InvalidRepoFormat))
    else if r.github.None? then (db, Reject(CheckFailed))
    else if !r.github.value then (db, Reject(RepoNotFound))
    else
      var (db1, ok) := db.Query();
      if !ok then (db1, Reject(DatabaseError))
      else
        match FindPair(db.t, r.email, r.repo)
        case None => (db1, Launch(r.newSub, false))
        case Some(i) =>
          (db1, if db.t.subs[i].status != MarkedFailed then Reject(AlreadySubscribed) else Launch(i, true))
  }

  function AttemptFor(r: Request, sub: SubId, baseUrl: string): Attempt {
    Attempt(sub, r.email, r.repo, r.token, ConfirmUrl(baseUrl, r.token), r.saga, r.row)
  }

  /** Subscribe over the broker transport. */
  ghost function Subscribe(db: Db, r: Request, baseUrl: string): (Db, Outcome) {
    var (db1, d) := Decide(db, r);
    match d
    case Reject(outcome) => (db1, outcome)
    case Launch(sub, reactivate) =>
      var (db2, ok) := O.Start(db1, AttemptFor(r, sub, baseUrl), reactivate, true);
      (db2, if ok then Accepted else SagaFailed)
  }

  /** ... and over gRPC, with the notifier's environment. */
  ghost function SubscribeInline(db: Db, e: O.N.Env, network: Fault, r: Request, baseUrl: string): (Db, O.N.Env, Outcome) {
    var (db1, d) := Decide(db, r);
    match d
    case Reject(outcome) => (db1, e, outcome)
    case Launch(sub, reactivate) =>
      var (db2, e1, ok) := O.StartSync(db1, e, network, AttemptFor(r, sub, baseUrl), reactivate);
      (db2, e1, if ok then Accepted else SagaFailed)
  }

  ghost function Confirm(db: Db, x: T.Tracking, token: Token): (Db, T.Tracking, LinkOutcome) {
    var (db1, ok) := db.Query();
    if !ok then (db1, x, LookupFailed)
    else
      match FindToken(db.t, token)
      case None => (db1, x, TokenNotFound)
      case Some(i) =>
        var (db2, written) :=
          if db.t.subs[i].confirmed then (db1, true) else db1.Exec(Some(ConfirmSubscription(db1.t, token)));
        if !written then (db2, x, WriteFailed)
        else
          var (x1, tracked) := T.Register(x, db.t.subs[i].repo);
          (db2, x1, if tracked then Done else TrackFailed)
  }

  ghost function Unsubscribe(db: Db, token: Token): (Db, LinkOutcome) {
    var (db1, ok) := db.Query();
    if !ok then (db1, LookupFailed)
    else if FindToken(db.t, token).None? then (db1, TokenNotFound)
    else
      var (db2, deleted) := db1.Exec(Some(DeleteSubscription(db1.t, token)));
      (db2, if deleted then Done else WriteFailed)
  }

  // ------------------------------------------------------------------- the code

  class Service {
    const subs: SubscriptionStore
    const tracker: T.TrackingStore
    const saga: O.Orchestrator
    const baseUrl: string

    constructor (subs: SubscriptionStore, tracker: T.TrackingStore, saga: O.Orchestrator, baseUrl: string)
      ensures this.subs == subs && this.tracker == tracker && this.saga == saga && this.baseUrl == baseUrl
    { this.subs, this.tracker, this.saga, this.baseUrl := subs, tracker, saga, baseUrl; }

    ghost predicate Wired() { saga.Wired() && subs.db == saga.db }

    method SubscribeTo(r: Request) returns (outcome: Outcome)
      requires Wired() && Constraints(subs.db.t)
      requires saga.sender != null ==> saga.sender.server.dedup.ttl > 0
      modifies subs.db, if saga.sender == null then {} else {saga.sender.server.sender, saga.sender.server.dedup}
      ensures saga.sender == null ==> (subs.db.Value(), outcome) == Subscribe(old(subs.db.Value()), r, baseUrl)
      ensures saga.sender != null ==>
                (subs.db.Value(), saga.sender.server.Value(), outcome) ==
                SubscribeInline(old(subs.db.Value()), old(saga.sender.server.Value()), saga.sender.network, r, baseUrl)
    {
      if !r.emailOk { return InvalidEmail; }
      if ParseRepoSpec(r.repo).None? { return InvalidRepoFormat; }
      if r.github.None? { return CheckFailed; }
      if !r.github.value { return RepoNotFound; }
      var ok, existing := subs.GetSubscriptionByEmailAndRepo(r.email, r.repo);
      if !ok { return DatabaseError; }
      assert existing == FindPair(subs.db.t, r.email, r.repo);
      if existing.Some? {
        if subs.db.t.subs[existing.value].status != MarkedFailed { return AlreadySubscribed; }
        ok := saga.StartConfirmation(AttemptFor(r, existing.value, baseUrl), true);
      } else {
        ok := saga.StartConfirmation(AttemptFor(r, r.newSub, baseUrl), false);
      }
      outcome := if ok then Accepted else SagaFailed;
    }

    method ConfirmLink(token: Token) returns (outcome: LinkOutcome)
      requires Constraints(subs.db.t)
      modifies subs.db, tracker
      ensures (subs.db.Value(), T.Tracking(tracker.rows, tracker.faults, []), outcome) ==
              Confirm(old(subs.db.Value()), T.Tracking(old(tracker.rows), old(tracker.faults), []), token)
    {
      var ok, found := subs.GetSubscriptionByToken(token);
      if !ok { return LookupFailed; }
      assert found == FindToken(subs.db.t, token);
      if found.None? { return TokenNotFound; }
      var sub := subs.db.t.subs[found.value];
      if !sub.confirmed {
        ok := subs.ConfirmSubscription(token);
        if !ok { return WriteFailed; }
      }
      ok := tracker.RegisterRepo(sub.repo);
      outcome := if ok then Done else TrackFailed;
    }

    method UnsubscribeLink(token: Token) returns (outcome: LinkOutcome)
      requires Constraints(subs.db.t)
      modifies subs.db
      ensures (subs.db.Value(), outcome) == Unsubscribe(old(subs.db.Value()), token)
    {
      var ok, found := subs.GetSubscriptionByToken(token);
      if !ok { return LookupFailed; }
      if found.None? { return TokenNotFound; }
      ok := subs.DeleteSubscription(token);
      outcome := if ok then Done else WriteFailed;
    }

    /** Every confirmed subscriber of the repo once, with the row's own email and
        token, whatever its status. */
    method SubscribersForRepo(repo: string) returns (ok: bool, out: seq<Subscriber>)
      modifies subs.db
      ensures (subs.db.Value(), ok) == old(subs.db.Value()).Query()
      ensures ok ==> forall s :: s in out <==> Listed(subs.db.t, repo, s)
      ensures forall j, k | 0 <= j < k < |out| :: out[j].id != out[k].id
    {
      var rows: seq<SubId>;
      ok, rows := subs.GetSubscribersByRepo(repo);
      out := [];
      if !ok { return; }
      var i := 0;
      while i < |rows|
        invariant 0 <= i <= |rows| && |out| == i
        invariant forall k | 0 <= k < i ::
                    out[k] == Subscriber(rows[k], subs.db.t.subs[rows[k]].email, subs.db.t.subs[rows[k]].token)
      {
        var row := subs.db.t.subs[rows[i]];
        out := out + [Subscriber(rows[i], row.email, row.token)];
        i := i + 1;
      }
      forall s | Listed(subs.db.t, repo, s) ensures s in out {
        var k :| 0 <= k < |rows| && rows[k] == s.id;
        assert out[k] == s;
      }
    }
  }

  predicate Listed(t: Tables, repo: string, s: Subscriber) {
    && s.id in t.subs && t.subs[s.id].repo == repo && t.subs[s.id].confirmed
    && s.email == t.subs[s.id].email && s.token == t.subs[s.id].token
  }

  /** Every reachable state of the protocol meets the constraints. */
  lemma ReachableIsConstrained(actions: seq<P.Action>, w: P.World)
    requires P.Run(P.Init(), actions, w)
    ensures Constraints(w.t)
  {
    Atomicity.RunKeepsInv(P.Init(), actions, w);
    forall i, j | i in w.t.subs && j in w.t.subs && i != j ensures w.t.subs[i].token != w.t.subs[j].token {
      var p, q := w.ids.attempts[i], w.ids.attempts[j];
      assert p[|p| - 1] in p && q[|q| - 1] in q;
    }
  }

  // ------------------------------------------------------------------ subscribing

  /** The identifiers drawn for the request were never used. */
  predicate Unused(t: Tables, r: Request) {
    && r.newSub !in t.subs && r.saga !in t.sagas && r.row !in t.outbox
    && !TokenTaken(t, r.token) && !MessageIdTaken(t, ConfirmMessage(r.token))
  }

  /** The pair has exactly the row `i`, waiting under the request's token; its
      saga and its mail with the matching link are in place. */
  ghost predicate Waiting(t: Tables, r: Request, i: SubId, baseUrl: string) {
    && i in t.subs && t.subs[i] == Subscription(r.email, r.repo, r.token, false, Pending)
    && (forall j | j in t.subs && j != i :: !HasPair(t.subs[j], r.email, r.repo) && t.subs[j].token != r.token)
    && r.saga in t.sagas
    && t.sagas[r.saga] == Saga(i, r.email, r.repo, SubscriptionCreated, None, t.sagas[r.saga].updatedAt)
    && r.row in t.outbox && t.outbox[r.row].publishedAt.None?
    && t.outbox[r.row].message ==
       Delivery(RoutingConfirm, ConfirmMessage(r.token),
                ConfirmationRequest(r.saga, r.email, baseUrl + "/api/confirm/" + r.token))
  }

  /** Over the broker, with the collaborators working, Subscribe accepts exactly the requests with
      a valid email, a well-formed existing repo and no live subscription; a
      failed one is revived in its own row. */
  lemma SubscribeAcceptsExactly(t: Tables, r: Request, now: nat, baseUrl: string)
    requires Constraints(t) && Unused(t, r)
    ensures var (db, outcome) := Subscribe(Db(t, [], now), r, baseUrl);
            && (outcome == Accepted <==>
                  && r.emailOk && OwnerSlashRepo(r.repo) && r.github == Some(true)
                  && forall i | i in t.subs && HasPair(t.subs[i], r.email, r.repo) :: t.subs[i].status == MarkedFailed)
            && (outcome != Accepted ==> db.t == t)
            && (outcome == AlreadySubscribed ==>
                  exists i :: i in t.subs && HasPair(t.subs[i], r.email, r.repo) && t.subs[i].status != MarkedFailed)
            && (outcome == Accepted ==> exists i :: Waiting(db.t, r, i, baseUrl) && (PairTaken(t, r.email, r.repo) ==> i in t.subs))
  {
    ParseAcceptsExactly(r.repo);
    var (db, outcome) := Subscribe(Db(t, [], now), r, baseUrl);
    var (db1, d) := Decide(Db(t, [], now), r);
    if d.Launch? {
      var a := AttemptFor(r, d.sub, baseUrl);
      O.AllOrNothing(db1, a, d.reactivate, true);
      LaunchWaits(t, r, now, baseUrl, d);
    }
  }

  lemma LaunchWaits(t: Tables, r: Request, now: nat, baseUrl: string, d: Decision)
    requires Constraints(t) && Unused(t, r) && d.Launch?
    requires if d.reactivate then d.sub in t.subs && HasPair(t.subs[d.sub], r.email, r.repo) && t.subs[d.sub].status == MarkedFailed
             else d.sub == r.newSub && !PairTaken(t, r.email, r.repo)
    ensures var whole := T1(t, AttemptFor(r, d.sub, baseUrl), d.reactivate, true, now);
            whole.Some? && Waiting(whole.value, r, d.sub, baseUrl)
  {
    var a := AttemptFor(r, d.sub, baseUrl);
    var t1 := UpsertSubscription(t, a, d.reactivate).value;
    assert forall j | j in t1.subs && j != d.sub :: t1.subs[j] == t.subs[j];
    assert !MessageIdTaken(t1, ConfirmMessage(r.token));
  }

  /** Over the broker, whatever statement fails, Subscribe leaves everything or nothing, answers
      Accepted only for everything, and on a rejection touches no table. */
  lemma SubscribeIsAtomic(db: Db, r: Request, baseUrl: string)
    ensures var (z, outcome) := Subscribe(db, r, baseUrl);
            var d := Decide(db, r).1;
            && (d.Reject? ==> z.t == db.t && outcome == d.outcome && outcome != Accepted)
            && (d.Launch? ==>
                  var whole := T1(db.t, AttemptFor(r, d.sub, baseUrl), d.reactivate, true, db.now);
                  && (z.t == db.t || (whole.Some? && z.t == whole.value))
                  && (outcome == Accepted ==> whole.Some? && z.t == whole.value))
  {
    var (db1, d) := Decide(db, r);
    if d.Launch? { O.AllOrNothing(db1, AttemptFor(r, d.sub, baseUrl), d.reactivate, true); }
  }

  // --------------------------------------------------- subscribing over the gRPC path

  /** The saga of the request is finished: the mail was reported sent and the row
      waits for its link, or the row is marked failed. No outbox row was written. */
  ghost predicate Settled(t: Tables, z: Tables, r: Request, i: SubId) {
    && i in z.subs && HasPair(z.subs[i], r.email, r.repo) && z.subs[i].token == r.token && !z.subs[i].confirmed
    && r.saga in z.sagas && z.sagas[r.saga].sub == i && z.sagas[r.saga].email == r.email && z.sagas[r.saga].repo == r.repo
    && Terminal(z.sagas[r.saga].state)
    && z.subs[i].status == (if z.sagas[r.saga].state.Completed? then Pending else MarkedFailed)
    && z.outbox == t.outbox
  }

  /** Over gRPC the same requests are accepted, whatever the network, Redis and
      the mail server do: a failed call is compensated, not refused. */
  lemma InlineAcceptsExactly(t: Tables, r: Request, now: nat, e: O.N.Env, network: Fault, baseUrl: string)
    requires Constraints(t) && Unused(t, r)
    ensures var (db, z, outcome) := SubscribeInline(Db(t, [], now), e, network, r, baseUrl);
            && (outcome == Accepted <==>
                  && r.emailOk && OwnerSlashRepo(r.repo) && r.github == Some(true)
                  && forall i | i in t.subs && HasPair(t.subs[i], r.email, r.repo) :: t.subs[i].status == MarkedFailed)
            && (outcome != Accepted ==> db.t == t && z == e)
            && (outcome == Accepted ==>
                  exists i :: Settled(t, db.t, r, i) && (PairTaken(t, r.email, r.repo) ==> i in t.subs))
  {
    ParseAcceptsExactly(r.repo);
    var (db1, d) := Decide(Db(t, [], now), r);
    if d.Launch? {
      InlineStarts(t, r, now, baseUrl, d);
      InlineSettles(t, r, now, e, network, baseUrl, d);
    }
  }

  lemma InlineStarts(t: Tables, r: Request, now: nat, baseUrl: string, d: Decision)
    requires Constraints(t) && Unused(t, r) && d.Launch?
    requires if d.reactivate then d.sub in t.subs && HasPair(t.subs[d.sub], r.email, r.repo) && t.subs[d.sub].status == MarkedFailed
             else d.sub == r.newSub && !PairTaken(t, r.email, r.repo)
    ensures var whole := T1(t, AttemptFor(r, d.sub, baseUrl), d.reactivate, false, now);
            && whole.Some? && whole.value.outbox == t.outbox
            && d.sub in whole.value.subs && whole.value.subs[d.sub] == Subscription(r.email, r.repo, r.token, false, Pending)
            && whole.value.sagas == t.sagas[r.saga := NewSaga(AttemptFor(r, d.sub, baseUrl), now)]
  {}

  lemma InlineSettles(t: Tables, r: Request, now: nat, e: O.N.Env, network: Fault, baseUrl: string, d: Decision)
    requires d.Launch?
    requires var whole := T1(t, AttemptFor(r, d.sub, baseUrl), d.reactivate, false, now);
            && whole.Some? && whole.value.outbox == t.outbox
            && d.sub in whole.value.subs && whole.value.subs[d.sub] == Subscription(r.email, r.repo, r.token, false, Pending)
            && whole.value.sagas == t.sagas[r.saga := NewSaga(AttemptFor(r, d.sub, baseUrl), now)]
    ensures var (db, _, ok) := O.StartSync(Db(t, [], now), e, network, AttemptFor(r, d.sub, baseUrl), d.reactivate);
            ok && Settled(t, db.t, r, d.sub)
  {
    var a := AttemptFor(r, d.sub, baseUrl);
    var whole := T1(t, a, d.reactivate, false, now).value;
    O.AllOrNothing(Db(t, [], now), a, d.reactivate, false);
    assert O.Start(Db(t, [], now), a, d.reactivate, false) == (Db(whole, [], now), true);
    InlineEnds(whole, r.saga, d.sub, now);
  }

  lemma InlineEnds(t: Tables, s: SagaId, sub: SubId, now: nat)
    requires s in t.sagas && sub in t.subs
    ensures var (db, ok) := O.Complete(Db(t, [], now), s);
            ok && db.t == t.(sagas := t.sagas[s := t.sagas[s].(state := Completed, lastError := None, updatedAt := now)])
    ensures var (db, ok) := O.Compensate(Db(t, [], now), s, sub);
            && ok && db.t.subs == t.subs[sub := t.subs[sub].(status := MarkedFailed)] && db.t.outbox == t.outbox
            && s in db.t.sagas && db.t.sagas[s].state.Failed?
            && db.t.sagas[s].(state := t.sagas[s].state, lastError := t.sagas[s].lastError, updatedAt := t.sagas[s].updatedAt) == t.sagas[s]
  {}

  /** The rows of the attempt are all there, and nothing but their progress may
      differ from what T1 wrote. */
  ghost predicate Progressed(whole: Tables, z: Tables, s: SagaId, sub: SubId) {
    && s in whole.sagas && sub in whole.subs
    && z.sagas.Keys == whole.sagas.Keys && z.subs.Keys == whole.subs.Keys && z.outbox == whole.outbox
    && (forall x | x in whole.sagas && x != s :: z.sagas[x] == whole.sagas[x]) && z.sagas[s].sub == sub
    && (forall i | i in whole.subs && i != sub :: z.subs[i] == whole.subs[i])
    && (z.subs[sub] == whole.subs[sub] || z.subs[sub] == whole.subs[sub].(status := MarkedFailed))
    && (z.subs[sub] != whole.subs[sub] ==> Compensated(z.sagas[s].state))
  }

  /** What the inline path makes of an attempt that T1 may or may not have left. */
  ghost predicate WholeOrNothing(t: Tables, whole: Option<Tables>, z: Tables, s: SagaId, sub: SubId, accepted: bool) {
    && (z == t || (whole.Some? && Progressed(whole.value, z, s, sub)))
    && (accepted ==> whole.Some? && Progressed(whole.value, z, s, sub) && Terminal(z.sagas[s].state))
  }

  /** Over gRPC, whatever statement fails: nothing is written, or T1 is there as a
      whole with some progress of its own saga; and Accepted means that the saga is
      finished. */
  lemma InlineIsAtomic(db: Db, r: Request, e: O.N.Env, network: Fault, baseUrl: string)
    ensures var (z, e1, outcome) := SubscribeInline(db, e, network, r, baseUrl);
            var d := Decide(db, r).1;
            && (d.Reject? ==> z.t == db.t && e1 == e && outcome == d.outcome && outcome != Accepted)
            && (d.Launch? ==>
                  WholeOrNothing(db.t, T1(db.t, AttemptFor(r, d.sub, baseUrl), d.reactivate, false, db.now),
                                 z.t, r.saga, d.sub, outcome == Accepted))
  {
    var (db1, d) := Decide(db, r);
    if d.Launch? {
      assert db1.t == db.t && db1.now == db.now;
      SyncIsAtomic(db1, e, network, AttemptFor(r, d.sub, baseUrl), d.reactivate);
    }
  }

  lemma SyncIsAtomic(db: Db, e: O.N.Env, network: Fault, a: Attempt, reactivate: bool)
    ensures var (z, _, ok) := O.StartSync(db, e, network, a, reactivate);
            WholeOrNothing(db.t, T1(db.t, a, reactivate, false, db.now), z.t, a.saga, a.sub, ok)
  {
    O.AllOrNothing(db, a, reactivate, false);
    var (db2, created) := O.Start(db, a, reactivate, false);
    if T1(db.t, a, reactivate, false, db.now).Some? { T1Progresses(db.t, a, reactivate, db.now); }
    if created {
      CompleteProgresses(db2, a.saga, a.sub);
      CompensateProgresses(db2, a.saga, a.sub);
    }
  }

  lemma T1Progresses(t: Tables, a: Attempt, reactivate: bool, now: nat)
    requires T1(t, a, reactivate, false, now).Some?
    ensures var whole := T1(t, a, reactivate, false, now).value;
            Progressed(whole, whole, a.saga, a.sub) && whole.sagas[a.saga].state.SubscriptionCreated?
  {}

  lemma CompleteProgresses(db: Db, s: SagaId, sub: SubId)
    requires s in db.t.sagas && sub in db.t.subs && db.t.sagas[s].sub == sub
    ensures var (z, ok) := O.Complete(db, s);
            Progressed(db.t, z.t, s, sub) && (ok ==> Terminal(z.t.sagas[s].state))
  {}

  lemma StateProgresses(whole: Tables, t: Tables, s: SagaId, sub: SubId, state: SagaState, err: string, now: nat)
    requires Progressed(whole, t, s, sub) && Compensated(state)
    ensures UpdateState(t, s, state, Some(err), now).Some?
    ensures var z := UpdateState(t, s, state, Some(err), now).value; Progressed(whole, z, s, sub) && z.sagas[s].state == state
  {}

  lemma MarkProgresses(whole: Tables, t: Tables, s: SagaId, sub: SubId)
    requires Progressed(whole, t, s, sub) && Compensated(t.sagas[s].state)
    ensures MarkFailed(t, sub).Some? && Progressed(whole, MarkFailed(t, sub).value, s, sub)
  {}

  lemma CompensateProgresses(db: Db, s: SagaId, sub: SubId)
    requires s in db.t.sagas && sub in db.t.subs && db.t.sagas[s].sub == sub
    ensures var (z, ok) := O.Compensate(db, s, sub);
            Progressed(db.t, z.t, s, sub) && (ok ==> Terminal(z.t.sagas[s].state))
  {
    StateProgresses(db.t, db.t, s, sub, Compensating, P.GRPC_REASON, db.now);
    var (db1, ok1) := db.Exec(UpdateState(db.t, s, Compensating, Some(P.GRPC_REASON), db.now));
    if ok1 {
      MarkProgresses(db.t, db1.t, s, sub);
      var (db2, ok2) := db1.Exec(MarkFailed(db1.t, sub));
      if ok2 { StateProgresses(db.t, db2.t, s, sub, Failed, P.GRPC_REASON, db2.now); }
    }
  }

  // ------------------------------------------------------- every answer, exactly

  predicate HasLiveRow(t: Tables, r: Request) {
    exists i | i in t.subs :: HasPair(t.subs[i], r.email, r.repo) && t.subs[i].status != MarkedFailed
  }

  /** The request passes every check that does not need the database. */
  ghost predicate Checked(r: Request) { r.emailOk && OwnerSlashRepo(r.repo) && r.github == Some(true) }

  /** Each rejection stands for its own check, in the order of the checks. */
  ghost predicate RejectedFor(db: Db, r: Request, outcome: Outcome) {
    && (outcome == InvalidEmail <==> !r.emailOk)
    && (outcome == InvalidRepoFormat <==> r.emailOk && !OwnerSlashRepo(r.repo))
    && (outcome == CheckFailed <==> r.emailOk && OwnerSlashRepo(r.repo) && r.github == None)
    && (outcome == RepoNotFound <==> r.emailOk && OwnerSlashRepo(r.repo) && r.github == Some(false))
    && (outcome == DatabaseError <==> Checked(r) && !At(db.faults, 0).Works?)
    && (outcome == AlreadySubscribed <==> Checked(r) && At(db.faults, 0).Works? && HasLiveRow(db.t, r))
  }

  /** Which requests go on to T1, and for which row. */
  lemma LaunchesExactly(db: Db, r: Request)
    requires Constraints(db.t)
    ensures var (db1, d) := Decide(db, r);
            && (d.Launch? <==> Checked(r) && At(db.faults, 0).Works? && !HasLiveRow(db.t, r))
            && (d.Reject? ==> RejectedFor(db, r, d.outcome) && d.outcome != Accepted && d.outcome != SagaFailed)
            && (d.Launch? ==> db1 == Db(db.t, Left(db.faults, 1), db.now))
            && (d.Launch? && d.reactivate ==>
                  d.sub in db.t.subs && HasPair(db.t.subs[d.sub], r.email, r.repo) && db.t.subs[d.sub].status == MarkedFailed)
            && (d.Launch? && !d.reactivate ==> d.sub == r.newSub && !PairTaken(db.t, r.email, r.repo))
            && db1.t == db.t
  {
    ParseAcceptsExactly(r.repo);
  }

  /** Over both transports and with any statement failing, each rejection is answered
      if and only if it is due, and it changes nothing. */
  lemma RejectsExactly(db: Db, r: Request, e: O.N.Env, network: Fault, baseUrl: string)
    requires Constraints(db.t)
    ensures var (z, outcome) := Subscribe(db, r, baseUrl);
            RejectedFor(db, r, outcome) && (outcome != Accepted && outcome != SagaFailed ==> z.t == db.t)
    ensures var (z, e1, outcome) := SubscribeInline(db, e, network, r, baseUrl);
            RejectedFor(db, r, outcome) && (outcome != Accepted && outcome != SagaFailed ==> z.t == db.t && e1 == e)
  {
    LaunchesExactly(db, r);
  }

  lemma LaterFaults(faults: seq<Fault>, from: nat, to: nat)
    requires from <= to
    ensures AllWork(Left(faults, from), 0, to - from) == AllWork(faults, from, to)
  {
    forall i: nat | AllWork(Left(faults, from), 0, to - from) && from <= i < to ensures At(faults, i).Works? {
      assert At(Left(faults, from), i - from).Works?;
    }
  }

  /** Over the broker a request is accepted if and only if it is due and all six
      statements work: the lookup and the five of T1. */
  lemma AcceptsUnderFaults(db: Db, r: Request, baseUrl: string)
    requires Constraints(db.t) && Unused(db.t, r)
    ensures var (z, outcome) := Subscribe(db, r, baseUrl);
            && (outcome == Accepted <==> Checked(r) && !HasLiveRow(db.t, r) && AllWork(db.faults, 0, 6))
            && (outcome == Accepted ==> exists i :: Waiting(z.t, r, i, baseUrl))
  {
    LaunchesExactly(db, r);
    var (db1, d) := Decide(db, r);
    if d.Launch? {
      LaunchWaits(db.t, r, db.now, baseUrl, d);
      O.StartExactly(db1, AttemptFor(r, d.sub, baseUrl), d.reactivate, true);
      LaterFaults(db.faults, 1, 6);
    } else {
      assert AllWork(db.faults, 0, 6) ==> At(db.faults, 0).Works?;
    }
  }

  /** The saga of an inline request, by the answer heard and the writes after T1. */
  function InlineState(heard: bool, faults: seq<Fault>): SagaState {
    if At(faults, 5).FailsClean? then SubscriptionCreated
    else if heard then Completed
    else if At(faults, 5).Works? && At(faults, 6).Works? && !At(faults, 7).FailsClean? then Failed
    else Compensating
  }

  lemma WritesAfterT1(faults: seq<Fault>)
    ensures AllWork(faults, 0, 5) <==> At(faults, 0).Works? && AllWork(faults, 1, 5)
    ensures AllWork(faults, 5, 8) <==> At(faults, 5).Works? && At(faults, 6).Works? && At(faults, 7).Works?
    ensures forall i: nat :: At(Left(Left(faults, 1), 4), i) == At(faults, 5 + i)
  {}

  /** Over gRPC, with any faults of the database, the network, Redis and SMTP: the
      address of the request is mailed the link of its token if and only if T1 was
      reported, the server was reached and had not seen the token, and the mail
      server took the mail. What the caller heard decides the saga, and the request
      is accepted if and only if the writes of that decision work. */
  lemma InlineMailsExactly(db: Db, r: Request, e: O.N.Env, network: Fault, baseUrl: string)
    requires Constraints(db.t) && Unused(db.t, r)
    ensures var (z, e1, outcome) := SubscribeInline(db, e, network, r, baseUrl);
            var mail := Delivery(RoutingConfirm, ConfirmMessage(r.token),
                                 ConfirmationRequest(r.saga, r.email, baseUrl + "/api/confirm/" + r.token));
            var started := Checked(r) && !HasLiveRow(db.t, r) && AllWork(db.faults, 0, 5);
            var served := started && !network.FailsClean? && r.email != "";
            var mailed := served && !O.N.ReadAsSeen(e, mail) && |e.smtp| > 0 && e.smtp[0];
            var heard := served && network.Works? && (O.N.ReadAsSeen(e, mail) || mailed);
            && e1.accepted == (if mailed then e.accepted + [mail] else e.accepted)
            && (started ==> r.saga in z.t.sagas && z.t.sagas[r.saga].state == InlineState(heard, db.faults))
            && (outcome == Accepted <==> started && (if heard then At(db.faults, 5).Works? else AllWork(db.faults, 5, 8)))
  {
    LaunchesExactly(db, r);
    var (db1, d) := Decide(db, r);
    if d.Launch? {
      InlineStarts(db.t, r, db.now, baseUrl, d);
      LaterFaults(db.faults, 1, 5);
      O.InlineExactly(db1, e, network, AttemptFor(r, d.sub, baseUrl), d.reactivate);
      O.CallExactly(e, network, AttemptFor(r, d.sub, baseUrl));
      var whole := T1(db.t, AttemptFor(r, d.sub, baseUrl), d.reactivate, false, db.now).value;
      O.CompleteExactly(Db(whole, Left(db1.faults, 4), db.now), r.saga);
      O.CompensateExactly(Db(whole, Left(db1.faults, 4), db.now), r.saga, d.sub);
      WritesAfterT1(db.faults);
    } else {
      assert AllWork(db.faults, 0, 5) ==> At(db.faults, 0).Works?;
    }
  }

  // ------------------------------------------------------------------- confirming

  /** Confirm succeeds exactly for a token that resolves, and then the row is
      confirmed and its repo tracked. Its status becomes `confirmed` unless the
      row was confirmed before and failed since: that status stays. */
  lemma ConfirmDoes(t: Tables, x: T.Tracking, now: nat, token: Token)
    requires Constraints(t) && x.faults == []
    ensures var (db, z, outcome) := Confirm(Db(t, [], now), x, token);
            && (outcome == Done <==> TokenTaken(t, token))
            && (outcome != Done ==> outcome == TokenNotFound && db.t == t && z == x)
            && db.t.subs.Keys == t.subs.Keys && db.t.sagas == t.sagas && db.t.outbox == t.outbox
            && (forall i | i in t.subs ::
                  if t.subs[i].token != token then db.t.subs[i] == t.subs[i]
                  else
                    && db.t.subs[i].confirmed && t.subs[i].repo in z.rows
                    && db.t.subs[i] == t.subs[i].(confirmed := true, status := db.t.subs[i].status)
                    && (db.t.subs[i].status == Confirmed <==> !t.subs[i].confirmed || t.subs[i].status == Confirmed))
            && (forall repo | repo in x.rows :: repo in z.rows && z.rows[repo] == x.rows[repo])
  {
  }

  predicate Unconfirmed(t: Tables, token: Token) {
    exists i | i in t.subs :: t.subs[i].token == token && !t.subs[i].confirmed
  }

  /** Under any failures: which answer a confirmation gives, and that the row of the
      token is written if and only if it is not confirmed yet and the write takes
      effect. */
  lemma ConfirmAnswersExactly(db: Db, x: T.Tracking, token: Token)
    requires Constraints(db.t)
    ensures var (z, y, outcome) := Confirm(db, x, token);
            var (looked, due) := (At(db.faults, 0).Works?, Unconfirmed(db.t, token));
            var registers := looked && TokenTaken(db.t, token) && (due ==> At(db.faults, 1).Works?);
            && (outcome == LookupFailed <==> !looked)
            && (outcome == TokenNotFound <==> looked && !TokenTaken(db.t, token))
            && (outcome == WriteFailed <==> looked && due && !At(db.faults, 1).Works?)
            && (outcome == TrackFailed <==> registers && !At(x.faults, 0).Works?)
            && (outcome == Done <==> registers && At(x.faults, 0).Works?)
            && z.t == db.t.(subs := z.t.subs) && z.t.subs.Keys == db.t.subs.Keys
            && (forall i | i in db.t.subs ::
                  z.t.subs[i] == if looked && db.t.subs[i].token == token && !db.t.subs[i].confirmed && !At(db.faults, 1).FailsClean?
                                 then db.t.subs[i].(confirmed := true, status := Confirmed) else db.t.subs[i])
            && (forall repo :: repo in y.rows <==>
                  repo in x.rows || (registers && !At(x.faults, 0).FailsClean? && Owns(db.t, token, repo)))
  {}

  predicate Owns(t: Tables, token: Token, repo: string) {
    exists i | i in t.subs :: t.subs[i].token == token && t.subs[i].repo == repo
  }

  /** ... and an unsubscribe: an unknown link is "not found" whatever fails later, and
      the row goes if and only if the deletion takes effect. */
  lemma UnsubscribeAnswersExactly(db: Db, token: Token)
    ensures var (z, outcome) := Unsubscribe(db, token);
            var looked := At(db.faults, 0).Works?;
            && (outcome == LookupFailed <==> !looked)
            && (outcome == TokenNotFound <==> looked && !TokenTaken(db.t, token))
            && (outcome == WriteFailed <==> looked && TokenTaken(db.t, token) && !At(db.faults, 1).Works?)
            && (outcome == Done <==> looked && TokenTaken(db.t, token) && At(db.faults, 1).Works?)
            && z.t == db.t.(subs := z.t.subs)
            && (forall i :: i in z.t.subs <==>
                  i in db.t.subs && !(looked && db.t.subs[i].token == token && !At(db.faults, 1).FailsClean?))
            && (forall i | i in z.t.subs :: z.t.subs[i] == db.t.subs[i])
  {}

  /** Attempts at the same link, each with its own failures. */
  ghost function Tries(t: Tables, x: T.Tracking, token: Token, tries: seq<(seq<Fault>, seq<Fault>, nat)>): (Tables, T.Tracking)
    decreases |tries|
  {
    if tries == [] then (t, x)
    else
      var (db, z, _) := Confirm(Db(t, tries[0].0, tries[0].2), x.(faults := tries[0].1), token);
      Tries(db.t, z, token, tries[1..])
  }

  /** The tables a working confirmation leaves. */
  ghost function ConfirmedTables(t: Tables, token: Token): Tables {
    var found := FindToken(t, token);
    if found.Some? && !t.subs[found.value].confirmed then ConfirmSubscription(t, token) else t
  }

  ghost function ConfirmedRows(t: Tables, x: T.Tracking, token: Token): map<string, string> {
    var found := FindToken(t, token);
    if found.Some? && t.subs[found.value].repo !in x.rows then x.rows[t.subs[found.value].repo := ""] else x.rows
  }

  lemma ConfirmCleanly(t: Tables, x: T.Tracking, token: Token, n: nat)
    ensures var (db, z, outcome) := Confirm(Db(t, [], n), x.(faults := []), token);
            && db.t == ConfirmedTables(t, token) && z == x.(faults := [], rows := ConfirmedRows(t, x, token))
            && outcome == (if FindToken(t, token).Some? then Done else TokenNotFound)
  {}

  /** A try, however it went, did some of it: nothing, the row, or all. */
  lemma TryLeaves(t: Tables, x: T.Tracking, token: Token, faults: seq<Fault>, tracking: seq<Fault>, m: nat)
    ensures var (db, z, _) := Confirm(Db(t, faults, m), x.(faults := tracking), token);
            && (db.t == t || db.t == ConfirmedTables(t, token))
            && (z.rows == x.rows || z.rows == ConfirmedRows(t, x, token)) && z.log == x.log
  {}

  lemma ConfirmedTwice(t: Tables, x: T.Tracking, token: Token)
    requires Constraints(t)
    ensures var u := ConfirmedTables(t, token);
            && Constraints(u) && FindToken(u, token) == FindToken(t, token)
            && ConfirmedTables(u, token) == u && ConfirmedRows(u, x, token) == ConfirmedRows(t, x, token)
  {
    var u := ConfirmedTables(t, token);
    ConfirmedRow(t, token);
    SameIdentities(t, u);
    SameTokens(t, u, token);
  }

  lemma ConfirmedRow(t: Tables, token: Token)
    ensures var u := ConfirmedTables(t, token);
            && u.subs.Keys == t.subs.Keys
            && (forall i | i in t.subs ::
                  && u.subs[i].token == t.subs[i].token && u.subs[i].email == t.subs[i].email && u.subs[i].repo == t.subs[i].repo)
            && (FindToken(t, token).Some? ==> u.subs[FindToken(t, token).value].confirmed)
  {}

  lemma SameIdentities(t: Tables, u: Tables)
    requires Constraints(t) && u.subs.Keys == t.subs.Keys
    requires forall i | i in t.subs ::
               u.subs[i].token == t.subs[i].token && u.subs[i].email == t.subs[i].email && u.subs[i].repo == t.subs[i].repo
    ensures Constraints(u)
  {}

  lemma SameTokens(t: Tables, u: Tables, token: Token)
    requires Constraints(t) && u.subs.Keys == t.subs.Keys && forall i | i in t.subs :: u.subs[i].token == t.subs[i].token
    ensures FindToken(u, token) == FindToken(t, token)
  {
    var a, b := FindToken(t, token), FindToken(u, token);
    if a.Some? { assert u.subs[a.value].token == token; }
    if b.Some? { assert t.subs[b.value].token == token; }
  }

  lemma TryThenConfirm(t: Tables, x: T.Tracking, token: Token, faults: seq<Fault>, tracking: seq<Fault>, m: nat, n: nat)
    requires Constraints(t)
    ensures var (db, z, _) := Confirm(Db(t, faults, m), x.(faults := tracking), token);
            var (again, once) := (Confirm(Db(db.t, [], n), z.(faults := []), token), Confirm(Db(t, [], n), x.(faults := []), token));
            && Constraints(db.t)
            && again.0.t == once.0.t && again.1 == once.1 && again.2 == once.2
  {
    var (db, z, _) := Confirm(Db(t, faults, m), x.(faults := tracking), token);
    TryLeaves(t, x, token, faults, tracking, m);
    ConfirmedTwice(t, x, token);
    ConfirmCleanly(t, x, token, n);
    ConfirmCleanly(db.t, z, token, n);
    assert ConfirmedRows(t, x.(rows := ConfirmedRows(t, x, token)), token) == ConfirmedRows(t, x, token);
  }

  /** Retrying the link heals: any number of failed or successful tries followed
      by one that works ends where a single working one ends. */
  lemma {:induction false} ConfirmHeals(t: Tables, x: T.Tracking, token: Token, tries: seq<(seq<Fault>, seq<Fault>, nat)>, n: nat)
    requires Constraints(t)
    ensures var (u, z) := Tries(t, x, token, tries);
            var (again, once) := (Confirm(Db(u, [], n), z.(faults := []), token), Confirm(Db(t, [], n), x.(faults := []), token));
            again.0.t == once.0.t && again.1 == once.1 && again.2 == once.2
    decreases |tries|
  {
    if tries != [] {
      TryThenConfirm(t, x, token, tries[0].0, tries[0].1, tries[0].2, n);
      var (db, z, _) := Confirm(Db(t, tries[0].0, tries[0].2), x.(faults := tries[0].1), token);
      ConfirmHeals(db.t, z, token, tries[1..], n);
    }
  }

  // --------------------------------------------------------- failing, unsubscribing

  /** MarkFailed leaves the confirmed flag alone: a row that failed after it was
      confirmed is still told of releases, any other failed row is not. */
  lemma FailedStillListed(t: Tables, i: SubId)
    requires i in t.subs
    ensures var u := MarkFailed(t, i).value;
            && u.subs[i].status == MarkedFailed
            && (forall repo, s: Subscriber | s.id == i :: Listed(u, repo, s) <==> Listed(t, repo, s))
            && ((exists repo, s: Subscriber :: s.id == i && Listed(u, repo, s)) <==> t.subs[i].confirmed)
  {
    var s := Subscriber(i, t.subs[i].email, t.subs[i].token);
    assert t.subs[i].confirmed ==> Listed(MarkFailed(t, i).value, t.subs[i].repo, s);
  }

  /** Unsubscribing removes the row of the token and nothing else, and the pair
      can be subscribed anew. */
  lemma UnsubscribeFrees(t: Tables, now: nat, token: Token, r: Request, baseUrl: string)
    requires Constraints(t) && Unused(t, r)
    requires r.emailOk && OwnerSlashRepo(r.repo) && r.github == Some(true)
    requires exists i :: i in t.subs && t.subs[i].token == token && HasPair(t.subs[i], r.email, r.repo)
    ensures var (db, outcome) := Unsubscribe(Db(t, [], now), token);
            && outcome == Done && db.t.sagas == t.sagas && db.t.outbox == t.outbox
            && (forall i | i in t.subs :: if t.subs[i].token == token then i !in db.t.subs
                                          else i in db.t.subs && db.t.subs[i] == t.subs[i])
            && Subscribe(Db(db.t, [], now), r, baseUrl).1 == Accepted
            && !TokenTaken(Subscribe(Db(db.t, [], now), r, baseUrl).0.t, token)
  {
    var i :| i in t.subs && t.subs[i].token == token && HasPair(t.subs[i], r.email, r.repo);
    var u := Unsubscribe(Db(t, [], now), token).0.t;
    assert u == DeleteSubscription(t, token);
    assert Constraints(u) && Unused(u, r) && !TokenTaken(u, token) && r.token != token;
    SubscribeAcceptsExactly(u, r, now, baseUrl);
    SubscribeKeepsTokenFree(u, r, now, baseUrl, token);
  }

  lemma SubscribeKeepsTokenFree(t: Tables, r: Request, now: nat, baseUrl: string, token: Token)
    requires !TokenTaken(t, token) && r.token != token
    ensures !TokenTaken(Subscribe(Db(t, [], now), r, baseUrl).0.t, token)
  {
    SubscribeIsAtomic(Db(t, [], now), r, baseUrl);
    var d := Decide(Db(t, [], now), r).1;
    if d.Launch? {
      var a := AttemptFor(r, d.sub, baseUrl);
      var whole := T1(t, a, d.reactivate, true, now);
      if whole.Some? { assert whole.value.subs == UpsertSubscription(t, a, d.reactivate).value.subs; }
    }
  }
}
