/** Subscribe checks and then acts. Between the check and T1 anything may happen;
    what the guards of T1 then make of two requests for one pair. */
module Races {
  import opened Model
  import opened Stores
  import opened Protocol
  import Atomicity
  import Conservation
  import Subs = Subscriptions

  /** Rows keep their pair and are never created anew under an old id; revivals of
      either kind are only added. */
  ghost predicate Persists(w: World, z: World) {
    && w.ids.nextSub <= z.ids.nextSub
    && (forall i | i in z.t.subs && i < w.ids.nextSub ::
          i in w.t.subs && z.t.subs[i].email == w.t.subs[i].email && z.t.subs[i].repo == w.t.subs[i].repo)
    && (forall i: SubId :: w.audit.reactivations[i] <= z.audit.reactivations[i])
    && (forall i: SubId :: w.audit.revivals[i] <= z.audit.revivals[i])
  }

  lemma PersistsTransitive(w: World, m: World, z: World)
    requires Persists(w, m) && Persists(m, z)
    ensures Persists(w, z)
  {}

  lemma UserPersists(w: World, a: UserAction)
    requires EnabledUser(w, a)
    ensures Persists(w, ApplyUser(w, a))
  {
    if a.Subscribe? { Atomicity.SubscribeEffect(w, a.a, a.reactivate, a.broker); }
    else { Atomicity.UserKeepsShape(w, a); }
  }

  lemma RelayPersists(w: World, a: RelayAction)
    requires EnabledRelay(w, a)
    ensures Persists(w, ApplyRelay(w, a))
  {
    Atomicity.RelayKeepsShape(w, a);
  }

  lemma NotifierPersists(w: World, a: NotifierAction)
    requires EnabledNotifier(w, a)
    ensures Persists(w, ApplyNotifier(w, a))
  {
    Atomicity.NotifierKeepsShape(w, a);
  }

  lemma ConsumerPersists(w: World, a: ConsumerAction)
    requires EnabledConsumer(w, a)
    ensures Persists(w, ApplyConsumer(w, a))
  {
    Atomicity.ConsumerKeepsShape(w, a);
  }

  lemma SweeperPersists(w: World, a: SweeperAction)
    requires EnabledSweeper(w, a)
    ensures Persists(w, ApplySweeper(w, a))
  {
    Atomicity.SweeperKeepsShape(w, a);
  }

  lemma SyncPersists(w: World, a: SyncAction)
    requires EnabledSync(w, a)
    ensures Persists(w, ApplySync(w, a))
  {
    Atomicity.SyncKeepsShape(w, a);
  }

  lemma OtherPersists(w: World, a: OtherAction)
    requires EnabledOther(w, a)
    ensures Persists(w, ApplyOther(w, a))
  {
    Atomicity.OtherKeepsShape(w, a);
  }

  lemma StepPersists(w: World, a: Action)
    requires Enabled(w, a)
    ensures Persists(w, Apply(w, a))
  {
    match a
    case User(x) => UserPersists(w, x);
    case Relay(x) => RelayPersists(w, x);
    case Notifier(x) => NotifierPersists(w, x);
    case Consumer(x) => ConsumerPersists(w, x);
    case Sweeper(x) => SweeperPersists(w, x);
    case Sync(x) => SyncPersists(w, x);
    case Other(x) => OtherPersists(w, x);
  }

  lemma {:induction false} RunPersists(w: World, actions: seq<Action>, end: World)
    requires Run(w, actions, end)
    ensures Persists(w, end)
    decreases |actions|
  {
    if actions != [] {
      StepPersists(w, actions[0]);
      RunPersists(Apply(w, actions[0]), actions[1..], end);
      PersistsTransitive(w, Apply(w, actions[0]), end);
    }
  }

  /** The T1 of `a` was the winner at `w`; `u` is any later state. */
  ghost predicate Won(past: seq<Action>, w: World, a: Attempt, reactivate: bool, broker: bool, between: seq<Action>, u: World) {
    && Run(Init(), past, w) && EnabledUser(w, Subscribe(a, reactivate, broker))
    && Run(ApplyUser(w, Subscribe(a, reactivate, broker)), between, u)
  }

  lemma BothReachable(past: seq<Action>, w: World, a: Attempt, reactivate: bool, broker: bool, between: seq<Action>, u: World)
    requires Won(past, w, a, reactivate, broker, between, u)
    ensures Conservation.Inv(ApplyUser(w, Subscribe(a, reactivate, broker))) && Conservation.Inv(u)
  {
    var act := User(Subscribe(a, reactivate, broker));
    OneStepRun(w, act);
    RunAppend(Init(), past, w, [act], Apply(w, act));
    Conservation.RunKeepsInv(Init(), past + [act], Apply(w, act));
    RunAppend(Init(), past + [act], Apply(w, act), between, u);
    Conservation.RunKeepsInv(Init(), past + [act] + between, u);
  }

  /** A second revival needs a second failure. */
  lemma SecondRevival(past: seq<Action>, w: World, a: Attempt, broker: bool, between: seq<Action>, u: World)
    requires Won(past, w, a, true, broker, between, u)
    requires a.sub in u.t.subs && u.t.subs[a.sub].status == MarkedFailed
    ensures u.audit.failures[a.sub] > ApplyUser(w, Subscribe(a, true, broker)).audit.failures[a.sub]
  {
    var m := ApplyUser(w, Subscribe(a, true, broker));
    Atomicity.SubscribeEffect(w, a, true, broker);
    BothReachable(past, w, a, true, broker, between, u);
    RunPersists(m, between, u);
    assert Conservation.Balanced(m, a.sub) && Conservation.Balanced(u, a.sub);
  }

  /** As long as it is there, the winner's row holds the pair. */
  lemma WinnerHoldsPair(past: seq<Action>, w: World, a: Attempt, broker: bool, between: seq<Action>, u: World)
    requires Won(past, w, a, false, broker, between, u)
    ensures a.sub in u.t.subs ==> PairTaken(u.t, a.email, a.repo)
  {
    var m := ApplyUser(w, Subscribe(a, false, broker));
    Atomicity.SubscribeEffect(w, a, false, broker);
    RunPersists(m, between, u);
    assert a.sub in u.t.subs ==> u.t.subs[a.sub].email == a.email && u.t.subs[a.sub].repo == a.repo;
  }

  /** Of two requests for one pair that decided on the same tables, one wins. The
      other's T1, however much later and over whichever transport, can succeed
      only after the winner's row was deleted or has failed once more; otherwise
      it fails and, being one transaction, leaves nothing. */
  lemma RaceHasOneWinner(past: seq<Action>, w: World, first: Subs.Request, second: Subs.Request, baseUrl: string,
                         broker: bool, between: seq<Action>, u: World, otherBroker: bool)
    requires first.email == second.email && first.repo == second.repo
    requires var d := Subs.Decide(Db(w.t, [], w.now), first).1;
             && d.Launch? && Subs.Decide(Db(w.t, [], w.now), second).1.Launch?
             && Won(past, w, Subs.AttemptFor(first, d.sub, baseUrl), d.reactivate, broker, between, u)
    ensures var (d, e) := (Subs.Decide(Db(w.t, [], w.now), first).1, Subs.Decide(Db(w.t, [], w.now), second).1);
            var won := ApplyUser(w, Subscribe(Subs.AttemptFor(first, d.sub, baseUrl), d.reactivate, broker));
            T1(u.t, Subs.AttemptFor(second, e.sub, baseUrl), e.reactivate, otherBroker, u.now).Some? ==>
              if d.reactivate then u.audit.failures[d.sub] > won.audit.failures[d.sub] else d.sub !in u.t.subs
  {
    var d, e := Subs.Decide(Db(w.t, [], w.now), first).1, Subs.Decide(Db(w.t, [], w.now), second).1;
    var a, b := Subs.AttemptFor(first, d.sub, baseUrl), Subs.AttemptFor(second, e.sub, baseUrl);
    assert e.reactivate == d.reactivate && (d.reactivate ==> e.sub == d.sub);
    if T1(u.t, b, e.reactivate, otherBroker, u.now).Some? {
      assert UpsertSubscription(u.t, b, e.reactivate).Some?;
      if d.reactivate { SecondRevival(past, w, a, broker, between, u); }
      else { WinnerHoldsPair(past, w, a, broker, between, u); }
    }
  }
}
