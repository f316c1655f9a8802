/** gRPC sagas and their callers: exactly which waiting saga can still finish. */
module Callers {
  import opened Model
  import opened Protocol
  import opened Refinement
  import Atomicity
  import Decisions
  import Limits

  /** A gRPC saga on whose outcome nothing was written yet. */
  ghost predicate Waits(w: World, s: SagaId) {
    s in w.ids.grpc && s in w.t.sagas && w.t.sagas[s].state.SubscriptionCreated?
  }

  /** Its caller is there and knows of the mail, can compensate, or may yet hear
      of the mail. */
  ghost predicate HasHope(w: World, s: SagaId)
    requires s in w.t.sagas
  {
    && s in w.sync
    && (|| w.sync[s].Completing?
        || w.t.sagas[s].sub in w.t.subs
        || (w.sync[s].Calling? && s in w.server))
  }

  // ------------------------------------------------------------------- no way out

  /** The caller will have to compensate a row that is gone. */
  ghost predicate Deaf(w: World, s: SagaId) {
    && Waits(w, s) && s in w.sync && w.t.sagas[s].sub !in w.t.subs
    && (w.sync[s].SyncCompensating? || (w.sync[s].Calling? && s !in w.server))
  }

  ghost predicate Doomed(w: World, s: SagaId) {
    || Limits.Abandoned(w, s)
    || Deaf(w, s)
    || (s in w.ids.grpc && Limits.Orphaned(w, s) && !Limits.PastMark(w, s))
  }

  lemma GrpcStays(w: World, a: Action, s: SagaId)
    requires Enabled(w, a) && s in w.ids.grpc
    ensures s in Apply(w, a).ids.grpc
  {
    if Atomicity.Subscribes(a) { Atomicity.SubscribeEffect(w, a.user.a, a.user.reactivate, a.user.broker); }
    else { Atomicity.StepKeepsShape(w, a); }
  }

  /** Only its own caller and server touch the call. */
  lemma CallStands(w: World, a: Action, s: SagaId)
    requires Enabled(w, a) && s in w.sync && s in w.t.sagas && !(a.Sync? && a.sync.saga == s)
    ensures var z := Apply(w, a); s in z.sync && z.sync[s] == w.sync[s] && (s in z.server <==> s in w.server)
  {
    if a.User? && a.user.Subscribe? { assert a.user.a.saga != s; }
  }

  /** Neither the consumer nor the sweeper is past marking a waiting saga. */
  lemma WaitingIsUnmarked(w: World, s: SagaId)
    requires Decisions.Inv(w) && Waits(w, s) && w.ids.rowOf.Keys !! w.ids.grpc
    ensures !Limits.PastMark(w, s)
  {
    if s in w.sync { assert Decisions.CallerKnows(w, s, w.sync[s]); }
  }

  lemma OwnStep(w: World, a: SyncAction, s: SagaId)
    requires Decisions.Inv(w) && w.ids.rowOf.Keys !! w.ids.grpc
    requires EnabledSync(w, a) && a.saga == s && Deaf(w, s)
    ensures Doomed(ApplySync(w, a), s)
  {
    WaitingIsUnmarked(w, s);
    assert ApplySync(w, a).consumer == w.consumer && ApplySync(w, a).sweeper == w.sweeper;
  }

  lemma DeafStep(w: World, a: Action, s: SagaId)
    requires Atomicity.Inv(w) && Decisions.Inv(w) && Enabled(w, a) && Deaf(w, s)
    ensures Doomed(Apply(w, a), s)
  {
    if a.Sync? && a.sync.saga == s {
      OwnStep(w, a.sync, s);
    } else {
      WaitingIsUnmarked(w, s);
      CallStands(w, a, s);
      GrpcStays(w, a, s);
      Limits.StatesAreWritten(w, a, s);
      Limits.SubStays(w, a, s);
      Limits.GoneStaysGone(w, a, w.t.sagas[s].sub);
    }
  }

  lemma DoomedStep(w: World, a: Action, s: SagaId)
    requires Atomicity.Inv(w) && Decisions.Inv(w) && Enabled(w, a) && Doomed(w, s)
    ensures Doomed(Apply(w, a), s)
  {
    if Limits.Abandoned(w, s) { Limits.AbandonedStep(w, a, s); }
    else if Deaf(w, s) { DeafStep(w, a, s); }
    else { Limits.OrphanStep(w, a, s); GrpcStays(w, a, s); }
  }

  lemma {:induction false} DoomedStays(w: World, actions: seq<Action>, end: World, s: SagaId)
    requires Atomicity.Inv(w) && Decisions.Inv(w) && Run(w, actions, end) && Doomed(w, s)
    ensures Doomed(end, s)
    decreases |actions|
  {
    if actions != [] {
      DoomedStep(w, actions[0], s);
      Atomicity.StepKeepsInv(w, actions[0]);
      Decisions.StepKeepsInv(w, actions[0]);
      DoomedStays(Apply(w, actions[0]), actions[1..], end, s);
    }
  }

  // ---------------------------------------------------------------------- a way out

  /** The caller finished `s`; no other saga and no row's existence changed. */
  ghost predicate Finished(w: World, z: World, s: SagaId)
    requires s in w.t.sagas
  {
    && s in z.t.sagas && Terminal(z.t.sagas[s].state)
    && z.t.sagas == w.t.sagas[s := z.t.sagas[s]] && z.t.sagas[s].sub == w.t.sagas[s].sub
    && z.t.subs.Keys == w.t.subs.Keys && z.t.outbox == w.t.outbox
    && z.ids == w.ids && z.now == w.now && z.sync == w.sync - {s}
    && z.consumer == w.consumer && z.sweeper == w.sweeper && z.server.Keys == w.server.Keys
  }

  lemma WriteCompleted(w: World, s: SagaId) returns (z: World)
    requires s in w.sync && s in w.t.sagas && w.sync[s].Completing?
    ensures Reaches(w, z) && Finished(w, z, s) && z.mail == w.mail
  {
    Step(w, Sync(SyncWrite(s)));
    z := Apply(w, Sync(SyncWrite(s)));
  }

  lemma WriteFailed(w: World, s: SagaId) returns (z: World)
    requires s in w.sync && s in w.t.sagas && w.sync[s].SyncCompensating? && w.t.sagas[s].sub in w.t.subs
    ensures Reaches(w, z) && Finished(w, z, s) && z.mail == w.mail
  {
    Step(w, Sync(SyncWrite(s)));
    var w1 := Apply(w, Sync(SyncWrite(s)));
    Step(w1, Sync(SyncWrite(s)));
    var w2 := Apply(w1, Sync(SyncWrite(s)));
    Then(w, w1, w2);
    Step(w2, Sync(SyncWrite(s)));
    z := Apply(w2, Sync(SyncWrite(s)));
    Then(w, w2, z);
  }

  /** With its row, a caller can always finish. */
  lemma CallerFinishes(w: World, s: SagaId) returns (z: World)
    requires Decisions.SyncKnows(w) && Waits(w, s) && s in w.sync && w.t.sagas[s].sub in w.t.subs
    ensures Reaches(w, z) && Finished(w, z, s) && z.mail == w.mail
  {
    assert Decisions.CallerKnows(w, s, w.sync[s]);
    if w.sync[s].Completing? {
      z := WriteCompleted(w, s);
    } else if w.sync[s].SyncCompensating? {
      z := WriteFailed(w, s);
    } else {
      Step(w, Sync(SyncReturn(s, false)));
      var m := Apply(w, Sync(SyncReturn(s, false)));
      z := WriteFailed(m, s);
      Then(w, m, z);
    }
  }

  lemma ServerAnswers(w: World, s: SagaId) returns (z: World)
    requires s in w.server && s in w.ids.tokenOf
    ensures Reaches(w, z) && z.server == w.server[s := ServerDone]
    ensures z.t == w.t && z.sync == w.sync && z.ids == w.ids && z.now == w.now
    ensures z.consumer == w.consumer && z.sweeper == w.sweeper
  {
    Stay(w);
    z := w;
    var m := z;
    if z.server[s].ServerReading? {
      Step(m, Sync(ServerRead(s, false)));
      z := Apply(m, Sync(ServerRead(s, false)));
      Then(w, m, z);
    }
    if z.server[s].ServerSending? {
      m := z;
      Step(m, Sync(ServerSend(s, true)));
      z := Apply(m, Sync(ServerSend(s, true)));
      Then(w, m, z);
    }
    if z.server[s].ServerMarking? {
      m := z;
      Step(m, Sync(ServerMark(s, true)));
      z := Apply(m, Sync(ServerMark(s, true)));
      Then(w, m, z);
    }
  }

  /** Even without the row: the mail goes out and the caller hears of it. */
  lemma CallSucceeds(w: World, s: SagaId) returns (z: World)
    requires s in w.sync && w.sync[s].Calling? && s in w.server && s in w.ids.tokenOf && s in w.t.sagas
    ensures Reaches(w, z) && Finished(w, z, s)
  {
    var m := ServerAnswers(w, s);
    Step(m, Sync(SyncReturn(s, true)));
    var n := Apply(m, Sync(SyncReturn(s, true)));
    Then(w, m, n);
    z := WriteCompleted(n, s);
    Then(w, n, z);
  }

  // ------------------------------------------------------------------- the theorem

  lemma CanFinishFrom(w: World, z: World, s: SagaId)
    requires Reaches(w, z) && s in z.t.sagas && Terminal(z.t.sagas[s].state)
    ensures Limits.CanFinish(w, s)
  {
    var actions :| Run(w, actions, z);
  }

  lemma HopeFinishes(w: World, s: SagaId) returns (z: World)
    requires Decisions.SyncKnows(w) && Atomicity.TokensDistinct(w) && Waits(w, s) && HasHope(w, s)
    ensures Reaches(w, z) && Finished(w, z, s)
  {
    if w.t.sagas[s].sub in w.t.subs { z := CallerFinishes(w, s); }
    else if w.sync[s].Completing? { z := WriteCompleted(w, s); }
    else { z := CallSucceeds(w, s); }
  }

  lemma NoHopeIsDoomed(w: World, s: SagaId)
    requires Decisions.SyncKnows(w) && Waits(w, s) && !HasHope(w, s)
    ensures Doomed(w, s)
  {
    if s in w.sync { assert Decisions.CallerKnows(w, s, w.sync[s]); }
  }

  /** A gRPC saga that waits can still finish if and only if its caller is alive
      and has been told of the mail, can still mark the subscription failed, or
      may yet be told by a server that is still there. Without its caller it
      waits for ever: it has no outbox row that could re-drive it. */
  lemma WaitingCallFinishesExactly(past: seq<Action>, w: World, s: SagaId)
    requires Run(Init(), past, w) && Waits(w, s)
    ensures Limits.CanFinish(w, s) <==> HasHope(w, s)
  {
    Decisions.RunIsStable(Init(), past, w);
    if HasHope(w, s) {
      var z := HopeFinishes(w, s);
      CanFinishFrom(w, z, s);
    } else {
      NoHopeIsDoomed(w, s);
      forall actions, end | Run(w, actions, end) ensures !(s in end.t.sagas && Terminal(end.t.sagas[s].state)) {
        DoomedStays(w, actions, end, s);
      }
    }
  }
}
