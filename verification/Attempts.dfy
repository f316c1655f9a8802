/** One live attempt per subscription, when handlers run without interleaving but
    may stop before MarkFailed. (Limits shows how interleaving breaks it.) */
module Attempts {
  import opened Model
  import opened Stores
  import R = ReplyConsumers
  import S = Sweepers
  import O = Orchestrators
  import Limits

  /** The tables and, per subscription, its attempts in order. */
  datatype State = State(t: Tables, order: map<SubId, seq<SagaId>>)

  datatype Step =
    | Subscribe(a: Attempt, reactivate: bool, broker: bool, now: nat)
    | Confirm(token: Token)
    | Unsubscribe(token: Token)
    | Reply(r: Model.Reply, stops: bool, now: nat)
    | Sweep(s: SagaId, stops: bool, now: nat)
    | Inline(s: SagaId, sent: bool, stops: bool, now: nat)

  /** Faults under which a handler reaches MarkFailed and dies there. */
  function ReplyFaults(stops: bool): seq<Fault> { if stops then [Works, Works, FailsClean] else [] }

  ghost predicate Allowed(x: State, step: Step) {
    match step
    case Subscribe(a, reactivate, broker, now) =>
      && T1(x.t, a, reactivate, broker, now).Some?
      && (!reactivate ==> forall s | s in x.t.sagas :: x.t.sagas[s].sub != a.sub)
    case Sweep(s, _, _) => s in x.t.sagas
    case Inline(s, _, _, _) => s in x.t.sagas && x.t.sagas[s].state.SubscriptionCreated?
    case _ => true
  }

  function Take(x: State, step: Step): State
    requires step.Subscribe? ==> T1(x.t, step.a, step.reactivate, step.broker, step.now).Some?
    requires step.Sweep? ==> step.s in x.t.sagas
  {
    match step
    case Subscribe(a, reactivate, broker, now) =>
      var earlier := if a.sub in x.order then x.order[a.sub] else [];
      State(T1(x.t, a, reactivate, broker, now).value, x.order[a.sub := earlier + [a.saga]])
    case Confirm(token) => x.(t := ConfirmSubscription(x.t, token))
    case Unsubscribe(token) => x.(t := DeleteSubscription(x.t, token))
    case Reply(r, stops, now) => x.(t := R.Handle(Db(x.t, ReplyFaults(stops), now), r).0.t)
    case Sweep(s, stops, now) =>
      x.(t := S.SweepOne(Db(x.t, if stops then [FailsClean] else [], now), s, x.t.sagas[s]).t)
    case Inline(s, sent, stops, now) =>
      if s !in x.t.sagas then x
      else if sent then x.(t := O.Complete(Db(x.t, [], now), s).0.t)
      else x.(t := O.Compensate(Db(x.t, if stops then [Works, FailsClean] else [], now), s, x.t.sagas[s].sub).0.t)
  }

  ghost predicate Newest(x: State, s: SagaId) {
    && s in x.t.sagas && x.t.sagas[s].sub in x.order
    && x.order[x.t.sagas[s].sub] != []
    && x.order[x.t.sagas[s].sub][|x.order[x.t.sagas[s].sub]| - 1] == s
  }

  ghost predicate Unfinished(x: State, s: SagaId) { s in x.t.sagas && !Terminal(x.t.sagas[s].state) }

  ghost predicate Inv(x: State) {
    && (forall s | Unfinished(x, s) :: Newest(x, s))
    && (forall s | Unfinished(x, s) && x.t.sagas[s].sub in x.t.subs ::
          x.t.subs[x.t.sagas[s].sub].status != MarkedFailed)
  }

  /** `s` was decided: it alone moved, its row alone may have become failed, and
      only together with the saga. */
  ghost predicate Decides(t: Tables, u: Tables, s: SagaId) {
    && s in t.sagas && u.sagas.Keys == t.sagas.Keys && u.subs.Keys == t.subs.Keys
    && (forall x | x in t.sagas :: u.sagas[x].sub == t.sagas[x].sub)
    && (forall x | x in t.sagas && x != s :: u.sagas[x] == t.sagas[x])
    && (Terminal(t.sagas[s].state) ==> u.sagas[s].state == t.sagas[s].state)
    && (forall i | i in t.subs && u.subs[i] != t.subs[i] :: i == t.sagas[s].sub && !Terminal(t.sagas[s].state))
    && (!Terminal(u.sagas[s].state) ==> u.subs == t.subs)
  }

  lemma DecidesKeeps(x: State, u: Tables, s: SagaId)
    requires Inv(x) && Decides(x.t, u, s)
    ensures Inv(x.(t := u))
  {
    var z := x.(t := u);
    forall y | Unfinished(z, y) ensures Newest(z, y) { assert Unfinished(x, y) && Newest(x, y); }
    forall y | Unfinished(z, y) && u.sagas[y].sub in u.subs ensures u.subs[u.sagas[y].sub].status != MarkedFailed {
      assert Unfinished(x, y) && Newest(x, y);
      assert Unfinished(x, s) ==> Newest(x, s);
    }
  }

  lemma ReplyDecides(t: Tables, r: Model.Reply, stops: bool, now: nat)
    requires r.sagaId in t.sagas
    ensures Decides(t, R.Handle(Db(t, ReplyFaults(stops), now), r).0.t, r.sagaId)
  {
    if stops { StoppedReplyDecides(t, r, now); } else { WholeReplyDecides(t, r, now); }
  }

  lemma StoppedReplyDecides(t: Tables, r: Model.Reply, now: nat)
    requires r.sagaId in t.sagas
    ensures Decides(t, R.Handle(Db(t, ReplyFaults(true), now), r).0.t, r.sagaId)
  {
    var faults := ReplyFaults(true);
    assert faults[1..] == [Works, FailsClean] && faults[1..][1..] == [FailsClean];
  }

  lemma WholeReplyDecides(t: Tables, r: Model.Reply, now: nat)
    requires r.sagaId in t.sagas
    ensures Decides(t, R.Handle(Db(t, [], now), r).0.t, r.sagaId)
  {}

  lemma SweepDecides(t: Tables, s: SagaId, stops: bool, now: nat)
    requires s in t.sagas
    ensures Decides(t, S.SweepOne(Db(t, if stops then [FailsClean] else [], now), s, t.sagas[s]).t, s)
  {}

  lemma InlineDecides(x: State, step: Step)
    requires step.Inline? && Allowed(x, step)
    ensures Decides(x.t, Take(x, step).t, step.s)
  {
    if !step.sent {
      if step.stops { StoppedCompensateDecides(x.t, step.s, step.now); } else { WholeCompensateDecides(x.t, step.s, step.now); }
    }
  }

  lemma StoppedCompensateDecides(t: Tables, s: SagaId, now: nat)
    requires s in t.sagas && t.sagas[s].state.SubscriptionCreated?
    ensures Decides(t, O.Compensate(Db(t, [Works, FailsClean], now), s, t.sagas[s].sub).0.t, s)
  {}

  lemma WholeCompensateDecides(t: Tables, s: SagaId, now: nat)
    requires s in t.sagas && t.sagas[s].state.SubscriptionCreated?
    ensures Decides(t, O.Compensate(Db(t, [], now), s, t.sagas[s].sub).0.t, s)
  {}

  lemma SubscribeKeeps(x: State, step: Step)
    requires Inv(x) && step.Subscribe? && Allowed(x, step)
    ensures Inv(Take(x, step))
  {
    var a := step.a;
    var t1 := UpsertSubscription(x.t, a, step.reactivate).value;
    var z := Take(x, step);
    assert z.t.sagas == x.t.sagas[a.saga := NewSaga(a, step.now)] && z.t.subs == t1.subs;
    forall s | Unfinished(z, s) ensures Newest(z, s) {
      if s != a.saga { assert Unfinished(x, s) && Newest(x, s); }
    }
    forall s | Unfinished(z, s) && z.t.sagas[s].sub in z.t.subs ensures z.t.subs[z.t.sagas[s].sub].status != MarkedFailed {
      if s != a.saga { assert Unfinished(x, s); }
    }
  }

  lemma StepKeepsInv(x: State, step: Step)
    requires Inv(x) && Allowed(x, step)
    ensures Inv(Take(x, step))
  {
    match step
    case Subscribe(_, _, _, _) => SubscribeKeeps(x, step);
    case Reply(r, stops, now) =>
      if r.sagaId in x.t.sagas {
        ReplyDecides(x.t, r, stops, now);
        DecidesKeeps(x, Take(x, step).t, r.sagaId);
      }
    case Sweep(s, stops, now) => SweepDecides(x.t, s, stops, now); DecidesKeeps(x, Take(x, step).t, s);
    case Inline(s, _, _, _) => InlineDecides(x, step); DecidesKeeps(x, Take(x, step).t, s);
    case Confirm(_) => SubsOnly(x, step);
    case Unsubscribe(_) => SubsOnly(x, step);
  }

  lemma SubsOnly(x: State, step: Step)
    requires Inv(x) && (step.Confirm? || step.Unsubscribe?)
    ensures Inv(Take(x, step))
  {
    var z := Take(x, step);
    forall s | Unfinished(z, s) ensures Unfinished(x, s) && Newest(z, s) { assert Newest(x, s); }
  }

  ghost predicate Run(x: State, steps: seq<Step>, end: State)
    decreases |steps|
  {
    if steps == [] then x == end else Allowed(x, steps[0]) && Run(Take(x, steps[0]), steps[1..], end)
  }

  lemma {:induction false} RunKeepsInv(x: State, steps: seq<Step>, end: State)
    requires Inv(x) && Run(x, steps, end)
    ensures Inv(end)
    decreases |steps|
  {
    if steps != [] {
      StepKeepsInv(x, steps[0]);
      RunKeepsInv(Take(x, steps[0]), steps[1..], end);
    }
  }

  /** In every such run a subscription has at most one unfinished saga, none while
      it is failed, and a handler that may still mark it failed serves its newest
      attempt. */
  lemma OneLiveAttempt(steps: seq<Step>, x: State, i: SubId)
    requires Run(State(Tables(map[], map[], map[]), map[]), steps, x)
    ensures |Limits.LiveSagas(x.t, i)| <= 1
    ensures i in x.t.subs && x.t.subs[i].status == MarkedFailed ==> Limits.LiveSagas(x.t, i) == {}
    ensures forall s | s in Limits.LiveSagas(x.t, i) :: Newest(x, s)
  {
    RunKeepsInv(State(Tables(map[], map[], map[]), map[]), steps, x);
    var live := Limits.LiveSagas(x.t, i);
    forall s | s in live ensures Newest(x, s) && !(i in x.t.subs && x.t.subs[i].status == MarkedFailed) {
      assert Unfinished(x, s);
    }
    if s :| s in live {
      assert live == {s} by { forall y | y in live ensures y == s { assert Newest(x, y) && Newest(x, s); } }
    }
  }
}
