/** At-least-once at statement granularity: a stamp is never earlier than its
    publish, whatever crashes, requeues and T1s come between. */
module Publishing {
  import opened Model
  import opened Protocol
  import Atomicity

  ghost predicate Inv(w: World) {
    && (forall r | r in w.t.outbox && w.t.outbox[r].publishedAt.Some? :: r in w.published)
    && (w.relay.RelayMark? ==> w.relay.row in w.published)
  }

  /** No stamp is added and the relay stands still. */
  ghost predicate NoNewStamp(w: World, z: World) {
    && z.relay == w.relay && z.published == w.published
    && forall r | r in z.t.outbox && z.t.outbox[r].publishedAt.Some? ::
         r in w.t.outbox && w.t.outbox[r].publishedAt.Some?
  }

  lemma UserAddsNone(w: World, a: UserAction)
    requires EnabledUser(w, a)
    ensures NoNewStamp(w, ApplyUser(w, a))
  {
    if a.Subscribe? { Atomicity.SubscribeEffect(w, a.a, a.reactivate, a.broker); }
  }

  lemma RelayKeeps(w: World, a: RelayAction)
    requires Inv(w) && EnabledRelay(w, a)
    ensures Inv(ApplyRelay(w, a))
  {}

  lemma NotifierAddsNone(w: World, a: NotifierAction)
    requires EnabledNotifier(w, a)
    ensures NoNewStamp(w, ApplyNotifier(w, a))
  {}

  lemma ConsumerAddsNone(w: World, a: ConsumerAction)
    requires EnabledConsumer(w, a)
    ensures NoNewStamp(w, ApplyConsumer(w, a))
  {}

  lemma SweeperAddsNone(w: World, a: SweeperAction)
    requires EnabledSweeper(w, a)
    ensures NoNewStamp(w, ApplySweeper(w, a))
  {}

  lemma SyncAddsNone(w: World, a: SyncAction)
    requires EnabledSync(w, a)
    ensures NoNewStamp(w, ApplySync(w, a))
  {}

  lemma OtherAddsNone(w: World, a: OtherAction)
    requires EnabledOther(w, a)
    ensures NoNewStamp(w, ApplyOther(w, a))
  {}

  lemma FrameKeeps(w: World, z: World)
    requires Inv(w) && NoNewStamp(w, z)
    ensures Inv(z)
  {}

  lemma StepKeepsInv(w: World, a: Action)
    requires Inv(w) && Enabled(w, a)
    ensures Inv(Apply(w, a))
  {
    match a
    case Relay(x) => RelayKeeps(w, x);
    case User(x) => UserAddsNone(w, x); FrameKeeps(w, ApplyUser(w, x));
    case Notifier(x) => NotifierAddsNone(w, x); FrameKeeps(w, ApplyNotifier(w, x));
    case Consumer(x) => ConsumerAddsNone(w, x); FrameKeeps(w, ApplyConsumer(w, x));
    case Sweeper(x) => SweeperAddsNone(w, x); FrameKeeps(w, ApplySweeper(w, x));
    case Sync(x) => SyncAddsNone(w, x); FrameKeeps(w, ApplySync(w, x));
    case Other(x) => OtherAddsNone(w, x); FrameKeeps(w, ApplyOther(w, x));
  }

  lemma {:induction false} RunKeepsInv(w: World, actions: seq<Action>, end: World)
    requires Inv(w) && Run(w, actions, end)
    ensures Inv(end)
    decreases |actions|
  {
    if actions != [] {
      StepKeepsInv(w, actions[0]);
      RunKeepsInv(Apply(w, actions[0]), actions[1..], end);
    }
  }

  /** In every execution each stamped row was published, and so was the row that
      the relay is about to stamp. */
  lemma StampedWasPublished(actions: seq<Action>, w: World)
    requires Run(Init(), actions, w)
    ensures forall r | r in w.t.outbox && w.t.outbox[r].publishedAt.Some? :: r in w.published
    ensures w.relay.RelayMark? ==> w.relay.row in w.published
  {
    RunKeepsInv(Init(), actions, w);
  }
}
