/** Concrete runs behind the limits: each reaches a state in which a natural but
    false claim about the saga fails. */
module Witnesses {
  import opened Model
  import opened Protocol
  import Atomicity
  import Evidence
  import Limits
  import Callers

  const FIRST: Attempt := Attempt(0, "e@x.io", "o/r", "t1", "u1", "s1", 0)
  const SECOND: Attempt := Attempt(0, "e@x.io", "o/r", "t2", "u2", "s2", 1)

  lemma Then(start: World, actions: seq<Action>, w: World, a: Action)
    requires Run(start, actions, w) && Enabled(w, a)
    ensures Run(start, actions + [a], Apply(w, a))
  {
    OneStepRun(w, a);
    RunAppend(start, actions, w, [a], Apply(w, a));
  }

  ghost predicate Quiet(w: World) {
    && w.consumer.ReplyIdle? && w.sweeper.SweepIdle? && w.sync == map[]
    && w.mail == Init().mail && w.audit.lost == {}
    && w.ids.tokenOf == map["s1" := "t1"] && w.ids.rowOf == map["s1" := 0] && w.ids.grpc == {} && w.ids.nextSub == 1
    && w.t.sagas == map["s1" := NewSaga(FIRST, 0)] && w.now == 0
    && w.t.subs == map[0 := Subscription("e@x.io", "o/r", "t1", false, Pending)]
    && w.t.outbox == map[0 := OutboxRow("s1", Command(FIRST), None)]
  }

  lemma Fetched() returns (actions: seq<Action>, w: World)
    ensures Run(Init(), actions, w) && Quiet(w)
    ensures w.commands == [] && w.replies == [] && w.dedup == {}
    ensures w.relay == RelayNext([0]) && w.notifier.NotifierIdle?
  {
    var w1 := Apply(Init(), User(Subscribe(FIRST, false, true)));
    OneStepRun(Init(), User(Subscribe(FIRST, false, true)));
    assert Unpublished(w1.t) == {0};
    actions := [User(Subscribe(FIRST, false, true))];
    Then(Init(), actions, w1, Relay(Fetch));
    w := Apply(w1, Relay(Fetch));
    actions := actions + [Relay(Fetch)];
  }

  /** Subscribe, and the relay publishes the command. */
  lemma Published() returns (actions: seq<Action>, w: World)
    ensures Run(Init(), actions, w) && Quiet(w)
    ensures w.commands == [Command(FIRST)] && w.replies == [] && w.dedup == {}
    ensures w.relay == RelayMark(0, []) && w.notifier.NotifierIdle?
  {
    var w2: World;
    actions, w2 := Fetched();
    Then(Init(), actions, w2, Relay(Publish(true)));
    actions := actions + [Relay(Publish(true))];
    w := Apply(w2, Relay(Publish(true)));
  }

  /** The notifier gives up on the mail and says so. */
  lemma Refused() returns (actions: seq<Action>, w: World)
    ensures Run(Init(), actions, w) && Quiet(w)
    ensures w.commands == [] && w.replies == [Reply("s1", NotSent)] && w.dedup == {}
    ensures w.relay == RelayMark(0, []) && w.notifier == Marking(Command(FIRST), false)
  {
    var w0: World;
    actions, w0 := Published();
    Then(Init(), actions, w0, Notifier(TakeCommand));
    var w1 := Apply(w0, Notifier(TakeCommand));
    Then(Init(), actions + [Notifier(TakeCommand)], w1, Notifier(ReadDedup(true)));
    var w2 := Apply(w1, Notifier(ReadDedup(true)));
    actions := actions + [Notifier(TakeCommand)] + [Notifier(ReadDedup(true))];
    Then(Init(), actions, w2, Notifier(Send(false)));
    var w3 := Apply(w2, Notifier(Send(false)));
    actions := actions + [Notifier(Send(false))];
    Then(Init(), actions, w3, Notifier(PublishReply(true, true)));
    w := Apply(w3, Notifier(PublishReply(true, true)));
    actions := actions + [Notifier(PublishReply(true, true))];
  }

  /** The consumer has written `compensating` and is about to fail the row. */
  lemma Halfway() returns (actions: seq<Action>, w: World)
    ensures Run(Init(), actions, w)
    ensures w.consumer == FailingSubscription(Reply("s1", NotSent), 0) && w.sweeper.SweepIdle? && w.sync == map[]
    ensures w.t.sagas == map["s1" := NewSaga(FIRST, 0).(state := Compensating, lastError := Some(FAILED_REASON))]
    ensures w.t.subs == map[0 := Subscription("e@x.io", "o/r", "t1", false, Pending)] && w.t.outbox.Keys == {0}
    ensures w.t.outbox[0].message == Command(FIRST)
    ensures w.ids.tokenOf == map["s1" := "t1"] && w.now == 0
  {
    var w0: World;
    actions, w0 := Refused();
    Then(Init(), actions, w0, Consumer(TakeReply));
    var w1 := Apply(w0, Consumer(TakeReply));
    actions := actions + [Consumer(TakeReply)];
    Then(Init(), actions, w1, Consumer(Load));
    var w2 := Apply(w1, Consumer(Load));
    actions := actions + [Consumer(Load)];
    Then(Init(), actions, w2, Consumer(Write));
    w := Apply(w2, Consumer(Write));
    actions := actions + [Consumer(Write)];
  }

  /** The consumer retries and has read the compensating saga once more. */
  lemma ReadAgain() returns (actions: seq<Action>, w: World)
    ensures Run(Init(), actions, w) && w.sweeper.SweepIdle?
    ensures w.consumer.Deciding? && w.consumer.r == Reply("s1", NotSent)
    ensures w.t.sagas == map["s1" := NewSaga(FIRST, 0).(state := Compensating, lastError := Some(FAILED_REASON))]
    ensures w.t.subs == map[0 := Subscription("e@x.io", "o/r", "t1", false, Pending)]
  {
    var w0: World;
    actions, w0 := Halfway();
    Then(Init(), actions, w0, Consumer(RetryReply));
    var w1 := Apply(w0, Consumer(RetryReply));
    actions := actions + [Consumer(RetryReply)];
    Then(Init(), actions, w1, Consumer(Load));
    var w2 := Apply(w1, Consumer(Load));
    actions := actions + [Consumer(Load)];
    w := w2;
  }

  /** Meanwhile the sweeper fails the saga behind that read. */
  lemma FailedBehindTheReader() returns (actions: seq<Action>, w: World)
    ensures Run(Init(), actions, w) && "s1" in w.t.sagas && w.t.sagas["s1"].state.Failed?
    ensures w.consumer.Deciding? && w.consumer.r == Reply("s1", NotSent)
  {
    var w2: World;
    actions, w2 := ReadAgain();
    assert StaleSagas(w2.t, 1) == {"s1"} && IsResumable(w2.t, 1, ["s1"]);
    Then(Init(), actions, w2, Sweeper(FindStale(1, ["s1"])));
    var w3 := Apply(w2, Sweeper(FindStale(1, ["s1"])));
    actions := actions + [Sweeper(FindStale(1, ["s1"]))];
    Then(Init(), actions, w3, Sweeper(SweepHead(true)));
    var w4 := Apply(w3, Sweeper(SweepHead(true)));
    actions := actions + [Sweeper(SweepHead(true))];
    Then(Init(), actions, w4, Sweeper(SweepFail(true)));
    w := Apply(w4, Sweeper(SweepFail(true)));
    actions := actions + [Sweeper(SweepFail(true))];
  }

  /** `failed` is not absorbing: a reachable failed saga is compensating one
      write later. */
  lemma FailedIsOverwritten() returns (actions: seq<Action>, w: World)
    ensures Run(Init(), actions, w) && "s1" in w.t.sagas && w.t.sagas["s1"].state.Failed?
    ensures Enabled(w, Consumer(Write)) && "s1" in Apply(w, Consumer(Write)).t.sagas
    ensures Apply(w, Consumer(Write)).t.sagas["s1"].state.Compensating?
  {
    actions, w := FailedBehindTheReader();
    Limits.StatesAreWritten(w, Consumer(Write), "s1");
  }

  /** A compensating saga that nothing can finish: the user unsubscribes before
      the consumer has marked the row. */
  lemma OrphanedForGood() returns (actions: seq<Action>, w: World)
    ensures Run(Init(), actions, w) && Limits.Orphaned(w, "s1") && !Limits.PastMark(w, "s1")
    ensures !Limits.CanFinish(w, "s1")
  {
    var w0: World;
    actions, w0 := Halfway();
    Then(Init(), actions, w0, User(Unsubscribe("t1")));
    w := Apply(w0, User(Unsubscribe("t1")));
    actions := actions + [User(Unsubscribe("t1"))];
    assert "s1" !in w.sync;
    Limits.DeletedSubscriptionSticks(actions, w, "s1");
  }

  /** A waiting gRPC saga that nothing can finish: its caller dies after T1. */
  lemma AbandonedForGood() returns (actions: seq<Action>, w: World)
    ensures Run(Init(), actions, w) && Limits.Abandoned(w, "s1") && !Limits.CanFinish(w, "s1")
  {
    actions := [User(Subscribe(FIRST, false, false))];
    var w0 := Apply(Init(), User(Subscribe(FIRST, false, false)));
    OneStepRun(Init(), User(Subscribe(FIRST, false, false)));
    Then(Init(), actions, w0, Sync(SyncAbort("s1")));
    w := Apply(w0, Sync(SyncAbort("s1")));
    actions := actions + [Sync(SyncAbort("s1"))];
    Callers.WaitingCallFinishesExactly(actions, w, "s1");
  }

  lemma SecondMayStart(w: World)
    requires w.t.subs == map[0 := Subscription("e@x.io", "o/r", "t1", false, MarkedFailed)]
    requires w.t.sagas.Keys == {"s1"} && w.t.sagas["s1"].sub == 0 && !Terminal(w.t.sagas["s1"].state)
    requires w.t.outbox.Keys == {0} && w.t.outbox[0].message == Command(FIRST)
    requires w.ids.tokenOf == map["s1" := "t1"]
    ensures EnabledUser(w, Subscribe(SECOND, true, true))
    ensures {"s1", "s2"} <= Limits.LiveSagas(ApplyUser(w, Subscribe(SECOND, true, true)).t, 0)
  {
    assert !TokenTaken(w.t, "t2") && !MessageIdTaken(w.t, ConfirmMessage("t2"));
    var t1 := Reactivate(w.t, 0, "t2").value;
    var t2 := InsertSaga(t1, "s2", NewSaga(SECOND, w.now)).value;
    assert Enqueue(t2, 1, "s2", Command(SECOND)).Some?;
    Atomicity.SubscribeEffect(w, SECOND, true, true);
  }

  /** Two unfinished sagas of one subscription: a re-subscribe between MarkFailed
      and the final write. */
  lemma TwoLiveSagas() returns (actions: seq<Action>, w: World)
    ensures Run(Init(), actions, w)
    ensures {"s1", "s2"} <= Limits.LiveSagas(w.t, 0)
  {
    var w0: World;
    actions, w0 := Halfway();
    Then(Init(), actions, w0, Consumer(Write));
    var w1 := Apply(w0, Consumer(Write));
    actions := actions + [Consumer(Write)];
    SecondMayStart(w1);
    Then(Init(), actions, w1, User(Subscribe(SECOND, true, true)));
    w := Apply(w1, User(Subscribe(SECOND, true, true)));
    actions := actions + [User(Subscribe(SECOND, true, true))];
  }

  /** The unsent message is marked processed and its "failed" reply lost. */
  lemma Forgotten() returns (actions: seq<Action>, w: World)
    ensures Run(Init(), actions, w) && w.notifier.NotifierIdle? && w.consumer.ReplyIdle? && w.replies == [] && w.commands == []
    ensures w.dedup == {ConfirmMessage("t1")} && w.relay == RelayMark(0, []) && w.mail.sends == multiset{}
    ensures w.t.sagas == map["s1" := NewSaga(FIRST, 0)] && w.ids.tokenOf == map["s1" := "t1"]
    ensures w.t.outbox == map[0 := OutboxRow("s1", Command(FIRST), None)] && w.ids.rowOf == map["s1" := 0]
  {
    var w0: World;
    actions, w0 := Refused();
    Then(Init(), actions, w0, Notifier(MarkProcessed(true)));
    var w1 := Apply(w0, Notifier(MarkProcessed(true)));
    actions := actions + [Notifier(MarkProcessed(true))];
    Then(Init(), actions, w1, Notifier(Settle));
    var w2 := Apply(w1, Notifier(Settle));
    actions := actions + [Notifier(Settle)];
    Then(Init(), actions, w2, Other(LoseReply(0)));
    w := Apply(w2, Other(LoseReply(0)));
    actions := actions + [Other(LoseReply(0))];
  }

  /** The relay publishes the row again and the notifier reports it as sent. */
  lemma Misreported() returns (actions: seq<Action>, w: World)
    ensures Run(Init(), actions, w) && w.consumer.ReplyIdle? && w.replies == [Reply("s1", Sent)]
    ensures w.mail.sends == multiset{} && w.ids.tokenOf == map["s1" := "t1"] && w.ids.rowOf == map["s1" := 0]
    ensures w.t.sagas == map["s1" := NewSaga(FIRST, 0)]
  {
    var w0: World;
    actions, w0 := Forgotten();
    Then(Init(), actions, w0, Relay(MarkRow(false)));
    var w1 := Apply(w0, Relay(MarkRow(false)));
    actions := actions + [Relay(MarkRow(false))];
    Then(Init(), actions, w1, Relay(StopRelay));
    var w2 := Apply(w1, Relay(StopRelay));
    actions := actions + [Relay(StopRelay)];
    assert Unpublished(w2.t) == {0};
    Then(Init(), actions, w2, Relay(Fetch));
    var w3 := Apply(w2, Relay(Fetch));
    actions := actions + [Relay(Fetch)];
    assert w3.relay == RelayNext([0]);
    Then(Init(), actions, w3, Relay(Publish(true)));
    var w4 := Apply(w3, Relay(Publish(true)));
    actions := actions + [Relay(Publish(true))];
    w := w4;
    actions, w := Reported(actions, w4);
  }

  lemma Reported(before: seq<Action>, w0: World) returns (actions: seq<Action>, w: World)
    requires Run(Init(), before, w0) && w0.commands == [Command(FIRST)] && w0.notifier.NotifierIdle?
    requires ConfirmMessage("t1") in w0.dedup
    ensures Run(Init(), actions, w) && w.replies == w0.replies + [Reply("s1", Sent)]
    ensures w.consumer == w0.consumer && w.mail == w0.mail && w.ids == w0.ids && w.t == w0.t
  {
    Then(Init(), before, w0, Notifier(TakeCommand));
    var w1 := Apply(w0, Notifier(TakeCommand));
    actions := before + [Notifier(TakeCommand)];
    Then(Init(), actions, w1, Notifier(ReadDedup(true)));
    var w2 := Apply(w1, Notifier(ReadDedup(true)));
    actions := actions + [Notifier(ReadDedup(true))];
    Then(Init(), actions, w2, Notifier(ReportAgain(true)));
    w := Apply(w2, Notifier(ReportAgain(true)));
    actions := actions + [Notifier(ReportAgain(true))];
  }

  /** A completed broker saga for which no mail was ever accepted. */
  lemma CompletedButNeverEmailed() returns (actions: seq<Action>, w: World)
    ensures Run(Init(), actions, w) && "s1" in w.ids.rowOf
    ensures "s1" in w.t.sagas && w.t.sagas["s1"].state.Completed?
    ensures !Evidence.Emailed(w, "s1")
  {
    var w0: World;
    actions, w0 := Misreported();
    Then(Init(), actions, w0, Consumer(TakeReply));
    var w1 := Apply(w0, Consumer(TakeReply));
    actions := actions + [Consumer(TakeReply)];
    Then(Init(), actions, w1, Consumer(Load));
    var w2 := Apply(w1, Consumer(Load));
    actions := actions + [Consumer(Load)];
    Then(Init(), actions, w2, Consumer(Write));
    w := Apply(w2, Consumer(Write));
    actions := actions + [Consumer(Write)];
  }

  /** Over gRPC: the server has decided to send the mail. */
  lemma ServerSends() returns (actions: seq<Action>, w: World)
    ensures Run(Init(), actions, w) && w.sync == map["s1" := Calling] && w.mail.sends == multiset{}
    ensures w.server == map["s1" := ServerSending] && w.ids.tokenOf == map["s1" := "t1"]
    ensures w.t.subs == map[0 := Subscription("e@x.io", "o/r", "t1", false, Pending)]
    ensures w.t.sagas == map["s1" := NewSaga(FIRST, 0)]
  {
    var w1 := Apply(Init(), User(Subscribe(FIRST, false, false)));
    actions := [User(Subscribe(FIRST, false, false))];
    OneStepRun(Init(), User(Subscribe(FIRST, false, false)));
    Then(Init(), actions, w1, Sync(ServerRead("s1", true)));
    var w2 := Apply(w1, Sync(ServerRead("s1", true)));
    actions := actions + [Sync(ServerRead("s1", true))];
    w := w2;
  }

  /** The mail is accepted, the user follows its link, and the caller is still
      waiting for its answer. */
  lemma ConfirmedBeforeDeadline() returns (actions: seq<Action>, w: World)
    ensures Run(Init(), actions, w) && w.sync == map["s1" := Calling] && w.mail.sends == multiset{ConfirmMessage("t1")}
    ensures w.t.subs == map[0 := Subscription("e@x.io", "o/r", "t1", true, Confirmed)]
    ensures w.t.sagas == map["s1" := NewSaga(FIRST, 0)]
  {
    var w2: World;
    actions, w2 := ServerSends();
    Then(Init(), actions, w2, Sync(ServerSend("s1", true)));
    var w3 := Apply(w2, Sync(ServerSend("s1", true)));
    actions := actions + [Sync(ServerSend("s1", true))];
    Then(Init(), actions, w3, User(Confirm("t1")));
    w := Apply(w3, User(Confirm("t1")));
    actions := actions + [User(Confirm("t1"))];
  }

  /** A failed subscription that is confirmed all the same, its mail sent: the
      status says nothing about the flag. */
  lemma FailedButConfirmed() returns (actions: seq<Action>, w: World)
    ensures Run(Init(), actions, w) && ConfirmMessage("t1") in w.mail.sends
    ensures 0 in w.t.subs && w.t.subs[0].status == MarkedFailed && w.t.subs[0].confirmed
  {
    var w0: World;
    actions, w0 := ConfirmedBeforeDeadline();
    Then(Init(), actions, w0, Sync(SyncReturn("s1", false)));
    var w1 := Apply(w0, Sync(SyncReturn("s1", false)));
    actions := actions + [Sync(SyncReturn("s1", false))];
    Then(Init(), actions, w1, Sync(SyncWrite("s1")));
    var w2 := Apply(w1, Sync(SyncWrite("s1")));
    actions := actions + [Sync(SyncWrite("s1"))];
    Then(Init(), actions, w2, Sync(SyncWrite("s1")));
    w := Apply(w2, Sync(SyncWrite("s1")));
    actions := actions + [Sync(SyncWrite("s1"))];
  }

  // ----------------------------------------------------- mails that are sent again

  /** The command waits once more, mailed `n` times and never marked. */
  ghost predicate Resent(w: World, n: nat) {
    && w.commands == [Command(FIRST)] && w.notifier.NotifierIdle? && w.dedup == {}
    && w.mail == Init().mail.(sends := w.mail.sends, crashed := w.mail.crashed)
    && w.mail.sends[ConfirmMessage("t1")] == n && w.mail.crashed[ConfirmMessage("t1")] == n
  }

  /** Taken, looked up and mailed, but not yet marked. */
  lemma MailedOnceMore(actions: seq<Action>, w: World, n: nat) returns (more: seq<Action>, z: World)
    requires Run(Init(), actions, w) && Resent(w, n)
    ensures Run(Init(), more, z) && z.notifier == Replying(Command(FIRST), true) && z.commands == [] && z.dedup == {}
    ensures z.mail == w.mail.(sends := z.mail.sends) && z.mail.sends[ConfirmMessage("t1")] == n + 1
  {
    Then(Init(), actions, w, Notifier(TakeCommand));
    var w1 := Apply(w, Notifier(TakeCommand));
    more := actions + [Notifier(TakeCommand)];
    Then(Init(), more, w1, Notifier(ReadDedup(true)));
    var w2 := Apply(w1, Notifier(ReadDedup(true)));
    more := more + [Notifier(ReadDedup(true))];
    Then(Init(), more, w2, Notifier(Send(true)));
    z := Apply(w2, Notifier(Send(true)));
    more := more + [Notifier(Send(true))];
  }

  lemma {:induction false} ResentOften(n: nat) returns (actions: seq<Action>, w: World)
    ensures Run(Init(), actions, w) && Resent(w, n)
  {
    if n == 0 {
      actions, w := Published();
    } else {
      var first, w0 := ResentOften(n - 1);
      var more, z := MailedOnceMore(first, w0, n - 1);
      Then(Init(), more, z, Notifier(CrashNotifier));
      w := Apply(z, Notifier(CrashNotifier));
      actions := more + [Notifier(CrashNotifier)];
    }
  }

  /** The bound on sends is attained: for every n some execution crashes n times
      between send and mark, suffers no other fault, and sends one message n + 1
      times. */
  lemma BoundIsAttained(n: nat) returns (actions: seq<Action>, w: World)
    ensures Run(Init(), actions, w)
    ensures w.mail.sends[ConfirmMessage("t1")] == 1 + n && w.mail.crashed[ConfirmMessage("t1")] == n
    ensures w.mail.unmarked == w.mail.unread == w.mail.expired == multiset{}
  {
    var first, w0 := ResentOften(n);
    actions, w := MailedOnceMore(first, w0, n);
  }
}
