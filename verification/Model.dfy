/** The rows of the three Postgres tables, the messages of the two queues, and
    the SQL statements of the stores as functions on the tables. Every handler
    and every protocol step is built from these statements. */
module Model {

  datatype Option<+T> = None | Some(value: T)

  type SagaId = string
  type SubId = nat
  type Token = string

  datatype SagaState = SubscriptionCreated | Completed | Compensating | Failed

  datatype Status = Pending | Confirmed | MarkedFailed

  datatype Saga = Saga(
    sub: SubId, email: string, repo: string,
    state: SagaState, lastError: Option<string>, updatedAt: nat)

  datatype Subscription = Subscription(
    email: string, repo: string, token: Token, confirmed: bool, status: Status)

  datatype RoutingKey = RoutingConfirm | RoutingRelease | RoutingUnknown

  datatype Body =
    | ConfirmationRequest(sagaId: SagaId, to: string, url: string)
    | ReleaseRequest(recipient: string, repo: string, tag: string, unsubscribeUrl: string)
    | Undecodable

  /** The message ids in use: `confirm:<token>`, `release:<repo>:<tag>:<token>`
      and none at all. Their rendering as strings is the Identifiers module. */
  datatype MessageId =
    | ConfirmMessage(token: Token)
    | ReleaseMessage(repo: string, tag: string, subscriberToken: Token)
    | NoId

  datatype Delivery = Delivery(key: RoutingKey, messageId: MessageId, body: Body)

  datatype ReplyStatus = Sent | NotSent | UnknownStatus

  datatype Reply = Reply(sagaId: SagaId, status: ReplyStatus)

  datatype OutboxRow = OutboxRow(sagaId: SagaId, message: Delivery, publishedAt: Option<nat>)

  datatype Tables = Tables(
    subs: map<SubId, Subscription>,
    sagas: map<SagaId, Saga>,
    outbox: map<nat, OutboxRow>)

  /** One run of step T1: the identifiers it draws and the request it serves. */
  datatype Attempt = Attempt(
    sub: SubId, email: string, repo: string, token: Token, url: string,
    saga: SagaId, row: nat)

  const BATCH: nat := 100

  predicate Terminal(s: SagaState) { s.Completed? || s.Failed? }

  /** The two states that record a decision against the email. */
  predicate Compensated(s: SagaState) { s.Compensating? || s.Failed? }

  // ------------------------------------------------------------------ sequences

  predicate Distinct<T(==)>(q: seq<T>) { forall i, j | 0 <= i < j < |q| :: q[i] != q[j] }

  lemma {:induction false} DistinctSize<T>(q: seq<T>, all: set<T>)
    requires Distinct(q) && forall x :: x in all <==> x in q
    ensures |all| == |q|
    decreases |q|
  {
    if q == [] {
      assert all == {};
    } else {
      var last := q[|q| - 1];
      assert last in q && forall x | x in q :: x == last || x in q[..|q| - 1];
      DistinctSize(q[..|q| - 1], all - {last});
    }
  }

  lemma SubsetSize<T>(a: set<T>, b: set<T>)
    requires a <= b
    ensures |a| <= |b| && (a != b ==> |a| < |b|)
  {
    assert |b| == |a| + |b - a|;
  }

  // ---------------------------------------------------------------- saga table

  /** None stands for "no rows updated", which the store reports as an error. */
  function UpdateState(t: Tables, id: SagaId, state: SagaState, err: Option<string>, now: nat): Option<Tables> {
    if id in t.sagas then
      Some(t.(sagas := t.sagas[id := t.sagas[id].(state := state, lastError := err, updatedAt := now)]))
    else
      None
  }

  function InsertSaga(t: Tables, id: SagaId, saga: Saga): Option<Tables> {
    if id in t.sagas then None else Some(t.(sagas := t.sagas[id := saga]))
  }

  predicate Stale(t: Tables, before: nat, id: SagaId) {
    id in t.sagas && !Terminal(t.sagas[id].state) && t.sagas[id].updatedAt < before
  }

  function StaleSagas(t: Tables, before: nat): set<SagaId> {
    set id | id in t.sagas && Stale(t, before, id)
  }

  /** What FindResumable may return: the least recently updated stale sagas, at
      most one batch of them, ties in any order. */
  ghost predicate IsResumable(t: Tables, before: nat, ids: seq<SagaId>) {
    && Distinct(ids)
    && (forall i | 0 <= i < |ids| :: Stale(t, before, ids[i]))
    && (forall i, j | 0 <= i < j < |ids| :: t.sagas[ids[i]].updatedAt <= t.sagas[ids[j]].updatedAt)
    && |ids| <= BATCH
    && (forall id | id in StaleSagas(t, before) && id !in ids ::
          |ids| == BATCH && forall other | other in ids :: t.sagas[other].updatedAt <= t.sagas[id].updatedAt)
  }

  // ------------------------------------------------------- subscriptions table

  function MarkFailed(t: Tables, id: SubId): Option<Tables> {
    if id in t.subs then Some(t.(subs := t.subs[id := t.subs[id].(status := MarkedFailed)])) else None
  }

  predicate TokenTaken(t: Tables, token: Token) {
    exists i | i in t.subs :: t.subs[i].token == token
  }

  predicate PairTaken(t: Tables, email: string, repo: string) {
    exists i | i in t.subs :: t.subs[i].email == email && t.subs[i].repo == repo
  }

  /** The primary key and both UNIQUE constraints turn a clash into an error. */
  function InsertSubscription(t: Tables, id: SubId, email: string, repo: string, token: Token): Option<Tables> {
    if id in t.subs || TokenTaken(t, token) || PairTaken(t, email, repo) then None
    else Some(t.(subs := t.subs[id := Subscription(email, repo, token, false, Pending)]))
  }

  function Reactivate(t: Tables, id: SubId, token: Token): Option<Tables> {
    if id in t.subs && t.subs[id].status == MarkedFailed && !TokenTaken(t, token) then
      Some(t.(subs := t.subs[id := t.subs[id].(token := token, confirmed := false, status := Pending)]))
    else
      None
  }

  function ConfirmSubscription(t: Tables, token: Token): Tables {
    t.(subs := map i | i in t.subs ::
         if t.subs[i].token == token then t.subs[i].(confirmed := true, status := Confirmed) else t.subs[i])
  }

  function DeleteSubscription(t: Tables, token: Token): Tables {
    t.(subs := map i | i in t.subs && t.subs[i].token != token :: t.subs[i])
  }

  // -------------------------------------------------------------- outbox table

  predicate MessageIdTaken(t: Tables, messageId: MessageId) {
    exists r | r in t.outbox :: t.outbox[r].message.messageId == messageId
  }

  function Enqueue(t: Tables, row: nat, sagaId: SagaId, message: Delivery): Option<Tables> {
    if row in t.outbox || MessageIdTaken(t, message.messageId) then None
    else Some(t.(outbox := t.outbox[row := OutboxRow(sagaId, message, None)]))
  }

  function MarkPublished(t: Tables, row: nat, now: nat): Tables {
    if row in t.outbox then t.(outbox := t.outbox[row := t.outbox[row].(publishedAt := Some(now))]) else t
  }

  function Requeue(t: Tables, sagaId: SagaId): Tables {
    t.(outbox := map r | r in t.outbox ::
         if t.outbox[r].sagaId == sagaId then t.outbox[r].(publishedAt := None) else t.outbox[r])
  }

  function Unpublished(t: Tables): set<nat> {
    set r | r in t.outbox && t.outbox[r].publishedAt.None?
  }

  /** A stamp takes exactly its row out of the queue. */
  lemma StampedLeavesQueue(t: Tables, row: nat, now: nat)
    ensures Unpublished(MarkPublished(t, row, now)) == Unpublished(t) - {row}
    ensures MarkPublished(t, row, now).outbox.Keys == t.outbox.Keys
  {}

  /** A requeue puts exactly the saga's rows back, with their messages. */
  lemma RequeuedReturns(t: Tables, s: SagaId)
    ensures Unpublished(Requeue(t, s)) == Unpublished(t) + (set r | r in t.outbox && t.outbox[r].sagaId == s)
    ensures forall r | r in t.outbox :: r in Requeue(t, s).outbox && Requeue(t, s).outbox[r].message == t.outbox[r].message
  {
    assert forall r :: r in Requeue(t, s).outbox <==> r in t.outbox;
  }

  lemma {:induction false} FindLeast(ids: set<nat>) returns (least: nat)
    requires ids != {}
    ensures least in ids && forall x | x in ids :: least <= x
  {
    var m :| m in ids;
    least := m;
    if ids != {m} {
      var k := FindLeast(ids - {m});
      if k < m { least := k; }
      forall x | x in ids ensures least <= x { assert x == m || x in ids - {m}; }
    }
  }

  lemma LeastExists(ids: set<nat>)
    requires ids != {}
    ensures exists m :: m in ids && forall x | x in ids :: m <= x
  {
    var least := FindLeast(ids);
  }

  function Least(ids: set<nat>): (m: nat)
    requires ids != {}
    ensures m in ids && forall x | x in ids :: m <= x
  {
    LeastExists(ids);
    var m :| m in ids && forall x | x in ids :: m <= x;
    m
  }

  /** ORDER BY id. */
  function Ordered(ids: set<nat>): (rows: seq<nat>)
    ensures |rows| == |ids|
    ensures forall r :: r in rows <==> r in ids
    ensures forall i, j | 0 <= i < j < |rows| :: rows[i] < rows[j]
  {
    if ids == {} then [] else
      var m := Least(ids);
      [m] + Ordered(ids - {m})
  }

  /** ORDER BY id LIMIT limit. */
  function FetchUnpublished(t: Tables, limit: nat): (rows: seq<nat>)
    ensures |rows| == if |Unpublished(t)| <= limit then |Unpublished(t)| else limit
    ensures forall i | 0 <= i < |rows| :: rows[i] in Unpublished(t)
    ensures forall i, j | 0 <= i < j < |rows| :: rows[i] < rows[j]
    ensures forall r | r in Unpublished(t) && r !in rows :: |rows| == limit && forall x | x in rows :: x < r
  {
    var rows := Ordered(Unpublished(t));
    if |rows| <= limit then rows else
      assert forall x | x in rows[..limit] :: x in rows;
      rows[..limit]
  }

  // ------------------------------------------------------------------ step T1

  function Command(a: Attempt): Delivery {
    Delivery(RoutingConfirm, ConfirmMessage(a.token), ConfirmationRequest(a.saga, a.email, a.url))
  }

  function NewSaga(a: Attempt, now: nat): Saga {
    Saga(a.sub, a.email, a.repo, SubscriptionCreated, None, now)
  }

  function UpsertSubscription(t: Tables, a: Attempt, reactivate: bool): Option<Tables> {
    if reactivate then Reactivate(t, a.sub, a.token)
    else InsertSubscription(t, a.sub, a.email, a.repo, a.token)
  }

  /** The whole of T1 as one transaction: None when any of its statements fails. */
  function T1(t: Tables, a: Attempt, reactivate: bool, broker: bool, now: nat): Option<Tables> {
    match UpsertSubscription(t, a, reactivate)
    case None => None
    case Some(t1) =>
      match InsertSaga(t1, a.saga, NewSaga(a, now))
      case None => None
      case Some(t2) => if broker then Enqueue(t2, a.row, a.saga, Command(a)) else Some(t2)
  }
}
