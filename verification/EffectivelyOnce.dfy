/** Effectively-once email: every accepted send of a message id beyond the first
    is paid for by a crash between send and mark, a failed mark, a failed dedup
    read or an expired dedup key, however often the message is redelivered,
    re-published or re-driven. */
module EffectivelyOnce {
  import opened Model
  import opened Protocol
  import Evidence
  import Frames
  import Atomicity
  import Decisions

  ghost function Faults(m: MailLog, k: MessageId): nat {
    m.crashed[k] + m.unmarked[k] + m.unread[k] + m.expired[k]
  }

  predicate PastRead(pc: NotifierPc) { pc.Sending? || pc.Replying? || pc.Marking? }

  /** The consume loop has decided to send `k` and has not yet settled it. */
  ghost predicate NotifierHolds(w: World, k: MessageId) {
    PastRead(w.notifier) && w.notifier.d.messageId == k
  }

  predicate ServerPastRead(pc: ServerPc) { pc.ServerSending? || pc.ServerMarking? }

  ghost predicate ServerHolds(w: World, k: MessageId) {
    exists s :: s in w.server && ServerPastRead(w.server[s]) && s in w.ids.tokenOf && Key(w, s) == k
  }

  /** Sends allowed right now on top of the faults. */
  function NotifierCredit(pc: NotifierPc): nat {
    match pc
    case Replying(_, sent) => if sent then 1 else 0
    case Marking(_, sent) => if sent then 1 else 0
    case _ => 0
  }

  ghost predicate Settled(w: World, k: MessageId) {
    !k.NoId? && !NotifierHolds(w, k) && !ServerHolds(w, k) ==>
      w.mail.sends[k] <= Faults(w.mail, k) + (if k in w.dedup then 1 else 0)
  }

  ghost predicate NotifierPaid(w: World) {
    PastRead(w.notifier) && !w.notifier.d.messageId.NoId? ==>
      w.mail.sends[w.notifier.d.messageId] <= Faults(w.mail, w.notifier.d.messageId) + NotifierCredit(w.notifier)
  }

  ghost predicate ServerPaid(w: World) {
    forall s | s in w.server && s in w.ids.tokenOf && ServerPastRead(w.server[s]) ::
      w.mail.sends[Key(w, s)] <= Faults(w.mail, Key(w, s)) + (if w.server[s].ServerMarking? then 1 else 0)
  }

  ghost predicate Inv(w: World) {
    (forall k :: Settled(w, k)) && NotifierPaid(w) && ServerPaid(w)
  }

  // ------------------------------------------------------------------------ steps

  /** Sends, faults and the handlers that count are as they were. */
  lemma Frame(w: World, z: World)
    requires Inv(w) && z.mail == w.mail && z.dedup == w.dedup && z.notifier == w.notifier && z.server == w.server
    requires z.ids.tokenOf == w.ids.tokenOf
    ensures Inv(z)
  {
    forall k ensures Settled(z, k) { assert Settled(w, k); }
  }

  lemma SubscribeStep(w: World, a: UserAction)
    requires Atomicity.Inv(w) && Inv(w) && a.Subscribe? && EnabledUser(w, a)
    ensures Inv(ApplyUser(w, a))
  {
    var z := ApplyUser(w, a);
    assert w.server.Keys <= w.ids.tokenOf.Keys;
    forall k ensures Settled(z, k) {
      assert Settled(w, k);
      if ServerHolds(w, k) {
        var s :| s in w.server && ServerPastRead(w.server[s]) && s in w.ids.tokenOf && Key(w, s) == k;
        assert s in z.server && ServerPastRead(z.server[s]) && Key(z, s) == k;
      }
    }
  }

  /** The broker's keys and the gRPC server's keys never meet. */
  ghost predicate Apart(w: World) {
    forall s | s in w.server && s in w.ids.tokenOf && !w.notifier.NotifierIdle? ::
      w.notifier.d.messageId != Key(w, s)
  }

  lemma KeysApart(w: World)
    requires Atomicity.TokensDistinct(w) && Atomicity.RowsMatchSagas(w) && Decisions.CommandsOwned(w)
    ensures Apart(w)
  {
    if !w.notifier.NotifierIdle? { assert Decisions.Owned(w, w.notifier.d); }
  }

  ghost predicate PaidUpTo(w: World, k: MessageId) {
    w.mail.sends[k] <= Faults(w.mail, k) + (if k in w.dedup then 1 else 0)
  }

  lemma ReadingIsPaid(w: World)
    requires Inv(w) && Apart(w) && w.notifier.ReadingDedup? && !w.notifier.d.messageId.NoId?
    ensures PaidUpTo(w, w.notifier.d.messageId)
  {
    assert Settled(w, w.notifier.d.messageId);
  }

  lemma NotifierKeepsServer(w: World, a: NotifierAction)
    requires Apart(w) && ServerPaid(w) && EnabledNotifier(w, a)
    ensures ServerPaid(ApplyNotifier(w, a))
  {}

  lemma NotifierKeepsPaid(w: World, a: NotifierAction)
    requires EnabledNotifier(w, a) && NotifierPaid(w)
    requires w.notifier.ReadingDedup? && !w.notifier.d.messageId.NoId? ==> PaidUpTo(w, w.notifier.d.messageId)
    ensures NotifierPaid(ApplyNotifier(w, a))
  {}

  lemma NotifierKeepsSettled(w: World, a: NotifierAction, k: MessageId)
    requires Settled(w, k) && NotifierPaid(w) && EnabledNotifier(w, a)
    ensures Settled(ApplyNotifier(w, a), k)
  {
    SameServers(w, ApplyNotifier(w, a), k);
    if w.notifier.NotifierIdle? || w.notifier.d.messageId != k { NotifierCounts(w, a, k); }
  }

  lemma SameServers(w: World, z: World, k: MessageId)
    requires z.server == w.server && z.ids == w.ids
    ensures ServerHolds(z, k) <==> ServerHolds(w, k)
  {}

  /** Counters move only for the key of the message in hand. */
  lemma NotifierCounts(w: World, a: NotifierAction, k: MessageId)
    requires EnabledNotifier(w, a) && (w.notifier.NotifierIdle? || w.notifier.d.messageId != k)
    ensures ApplyNotifier(w, a).mail.sends[k] == w.mail.sends[k]
    ensures Faults(ApplyNotifier(w, a).mail, k) == Faults(w.mail, k)
    ensures k in ApplyNotifier(w, a).dedup <==> k in w.dedup
  {}

  lemma NotifierStep(w: World, a: NotifierAction)
    requires Atomicity.Inv(w) && Decisions.Inv(w) && Inv(w) && EnabledNotifier(w, a)
    ensures Inv(ApplyNotifier(w, a))
  {
    KeysApart(w);
    if w.notifier.ReadingDedup? && !w.notifier.d.messageId.NoId? { ReadingIsPaid(w); }
    NotifierKeepsServer(w, a);
    NotifierKeepsPaid(w, a);
    forall k ensures Settled(ApplyNotifier(w, a), k) { NotifierKeepsSettled(w, a, k); }
  }

  lemma SyncKeepsNotifier(w: World, a: SyncAction)
    requires Apart(w) && NotifierPaid(w) && EnabledSync(w, a)
    ensures NotifierPaid(ApplySync(w, a))
  {}

  lemma ServerReadingIsPaid(w: World, s: SagaId)
    requires Atomicity.TokensDistinct(w) && Inv(w) && Apart(w)
    requires s in w.server && s in w.ids.tokenOf && w.server[s].ServerReading?
    ensures PaidUpTo(w, Key(w, s))
  {
    assert Settled(w, Key(w, s));
  }

  lemma SyncKeepsPaid(w: World, a: SyncAction)
    requires Atomicity.TokensDistinct(w) && ServerPaid(w) && EnabledSync(w, a)
    requires a.ServerRead? ==> PaidUpTo(w, Key(w, a.saga))
    ensures ServerPaid(ApplySync(w, a))
  {
    var z := ApplySync(w, a);
    Evidence.OtherServersStand(w, a);
    Frames.SyncMoves(w, a);
    forall s | s in z.server && s in z.ids.tokenOf && ServerPastRead(z.server[s])
      ensures z.mail.sends[Key(z, s)] <= Faults(z.mail, Key(z, s)) + (if z.server[s].ServerMarking? then 1 else 0)
    {
      if s == a.saga { OwnServerPaid(w, a); } else { OtherServerPaid(w, a, s); }
    }
  }

  lemma OtherServerPaid(w: World, a: SyncAction, s: SagaId)
    requires Atomicity.TokensDistinct(w) && ServerPaid(w) && EnabledSync(w, a) && s != a.saga
    requires s in w.server && s in w.ids.tokenOf && ServerPastRead(w.server[s])
    ensures var (z, k) := (ApplySync(w, a), Key(w, s));
            z.mail.sends[k] <= Faults(z.mail, k) + (if w.server[s].ServerMarking? then 1 else 0)
  {
    SyncCounts(w, a, Key(w, s));
  }

  lemma OwnServerPaid(w: World, a: SyncAction)
    requires ServerPaid(w) && EnabledSync(w, a) && (a.ServerRead? ==> PaidUpTo(w, Key(w, a.saga)))
    requires a.saga in w.server && a.saga in ApplySync(w, a).server && a.saga in w.ids.tokenOf
    requires ServerPastRead(ApplySync(w, a).server[a.saga])
    ensures var (z, k) := (ApplySync(w, a), Key(w, a.saga));
            z.mail.sends[k] <= Faults(z.mail, k) + (if z.server[a.saga].ServerMarking? then 1 else 0)
  {}

  /** Counters move only for the key of the saga whose server acts. */
  lemma SyncCounts(w: World, a: SyncAction, k: MessageId)
    requires EnabledSync(w, a)
    requires a.saga !in w.server || a.saga !in w.ids.tokenOf || Key(w, a.saga) != k
    ensures ApplySync(w, a).mail.sends[k] == w.mail.sends[k]
    ensures Faults(ApplySync(w, a).mail, k) == Faults(w.mail, k)
    ensures k in ApplySync(w, a).dedup <==> k in w.dedup
  {}

  lemma SyncKeepsHolder(w: World, a: SyncAction, k: MessageId)
    requires EnabledSync(w, a) && ServerHolds(w, k)
    requires a.saga !in w.server || a.saga !in w.ids.tokenOf || Key(w, a.saga) != k
    ensures ServerHolds(ApplySync(w, a), k)
  {
    var z := ApplySync(w, a);
    var s :| s in w.server && ServerPastRead(w.server[s]) && s in w.ids.tokenOf && Key(w, s) == k;
    assert s in z.server && ServerPastRead(z.server[s]) && Key(z, s) == k;
  }

  lemma SyncKeepsOwn(w: World, a: SyncAction)
    requires EnabledSync(w, a) && ServerPaid(w) && a.saga in w.server && a.saga in w.ids.tokenOf
    requires w.server[a.saga].ServerReading? || w.server[a.saga].ServerDone? ==> Settled(w, Key(w, a.saga))
    ensures Settled(ApplySync(w, a), Key(w, a.saga))
  {
    var z := ApplySync(w, a);
    var k := Key(w, a.saga);
    if ServerHolds(w, k) && !ServerHolds(z, k) {
      assert a.saga in z.server ==> !ServerPastRead(z.server[a.saga]);
    } else if z.mail == w.mail && z.dedup == w.dedup && z.notifier == w.notifier {
      assert Settled(w, k) ==> Settled(z, k);
    }
  }

  lemma SyncSettles(w: World, a: SyncAction, k: MessageId)
    requires Inv(w) && EnabledSync(w, a)
    ensures Settled(ApplySync(w, a), k)
  {
    assert Settled(w, k);
    if a.saga in w.server && a.saga in w.ids.tokenOf && Key(w, a.saga) == k { SyncKeepsOwn(w, a); }
    else {
      SyncCounts(w, a, k);
      if ServerHolds(w, k) { SyncKeepsHolder(w, a, k); }
    }
  }

  lemma SyncStep(w: World, a: SyncAction)
    requires Atomicity.Inv(w) && Decisions.Inv(w) && Inv(w) && EnabledSync(w, a)
    ensures Inv(ApplySync(w, a))
  {
    KeysApart(w);
    SyncKeepsNotifier(w, a);
    if a.ServerRead? { ServerReadingIsPaid(w, a.saga); }
    SyncKeepsPaid(w, a);
    forall k ensures Settled(ApplySync(w, a), k) { SyncSettles(w, a, k); }
  }

  lemma ExpireStep(w: World, key: MessageId)
    requires Inv(w) && key in w.dedup
    ensures Inv(ApplyOther(w, Expire(key)))
  {
    var z := ApplyOther(w, Expire(key));
    forall k ensures Settled(z, k) {
      assert Settled(w, k);
      assert ServerHolds(z, k) <==> ServerHolds(w, k);
    }
  }

  lemma QuietStep(w: World, a: Action)
    requires Inv(w) && Enabled(w, a)
    requires (a.User? && !a.user.Subscribe?) || a.Relay? || (a.Other? && !a.other.Expire?)
    ensures Inv(Apply(w, a))
  {
    match a
    case User(x) => Frame(w, ApplyUser(w, x));
    case Relay(x) => Frames.RelayMoves(w, x); Frame(w, ApplyRelay(w, x));
    case Other(x) => Frame(w, ApplyOther(w, x));
  }

  lemma QuietHandlerStep(w: World, a: Action)
    requires Inv(w) && Enabled(w, a) && (a.Consumer? || a.Sweeper?)
    ensures Inv(Apply(w, a))
  {
    match a
    case Consumer(x) => Frames.ConsumerMoves(w, x); Frame(w, ApplyConsumer(w, x));
    case Sweeper(x) => Frames.SweeperMoves(w, x); Frame(w, ApplySweeper(w, x));
  }

  lemma StepKeepsInv(w: World, a: Action)
    requires Atomicity.Inv(w) && Decisions.Inv(w) && Inv(w) && Enabled(w, a)
    ensures Inv(Apply(w, a))
  {
    match a
    case User(x) => if x.Subscribe? { SubscribeStep(w, x); } else { QuietStep(w, a); }
    case Relay(_) => QuietStep(w, a);
    case Notifier(x) => NotifierStep(w, x);
    case Consumer(_) => QuietHandlerStep(w, a);
    case Sweeper(_) => QuietHandlerStep(w, a);
    case Sync(x) => SyncStep(w, x);
    case Other(x) => if x.Expire? { ExpireStep(w, x.key); } else { QuietStep(w, a); }
  }

  lemma {:induction false} RunKeepsInv(w: World, actions: seq<Action>, end: World)
    requires Atomicity.Inv(w) && Decisions.Inv(w) && Inv(w) && Run(w, actions, end)
    ensures Inv(end)
    decreases |actions|
  {
    if actions != [] {
      Atomicity.StepKeepsInv(w, actions[0]);
      Decisions.StepKeepsInv(w, actions[0]);
      StepKeepsInv(w, actions[0]);
      RunKeepsInv(Apply(w, actions[0]), actions[1..], end);
    }
  }

  /** In every execution and for every message id, the accepted sends exceed one
      by no more than the faults that hit that id. */
  lemma SendsAreBounded(actions: seq<Action>, w: World, k: MessageId)
    requires Run(Init(), actions, w) && !k.NoId?
    ensures w.mail.sends[k] <= 1 + w.mail.crashed[k] + w.mail.unmarked[k] + w.mail.unread[k] + w.mail.expired[k]
  {
    RunKeepsInv(Init(), actions, w);
    assert Settled(w, k);
    if ServerHolds(w, k) {
      var s :| s in w.server && ServerPastRead(w.server[s]) && s in w.ids.tokenOf && Key(w, s) == k;
    }
  }
}
