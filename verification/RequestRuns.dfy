/** The requests of the subscription service as runs of the protocol, with their
    checks, lookups and failures. */
module RequestRuns {
  import opened Model
  import opened Stores
  import opened Protocol
  import opened Refinement
  import N = Notifiers
  import Subs = Subscriptions

  /** The identifiers drawn for the request were never used. */
  ghost predicate FreshRequest(w: World, r: Subs.Request, baseUrl: string) {
    FreshAttempt(w, Subs.AttemptFor(r, r.newSub, baseUrl), false)
  }

  lemma DecideReads(db: Db, r: Subs.Request)
    ensures Subs.Decide(db, r).0.t == db.t && Subs.Decide(db, r).0.now == db.now
    ensures var d := Subs.Decide(db, r).1; d.Launch? && !d.reactivate ==> d.sub == r.newSub
  {}

  /** Subscribe over the broker, whatever fails, leaves the whole state as it was
      or is one T1 for the request; it is T1 whenever it answers Accepted. */
  lemma SubscribeIsRun(w: World, faults: seq<Fault>, r: Subs.Request, baseUrl: string) returns (z: World)
    requires FreshRequest(w, r, baseUrl)
    ensures var (db, outcome) := Subs.Subscribe(Db(w.t, faults, w.now), r, baseUrl);
            var d := Subs.Decide(Db(w.t, faults, w.now), r).1;
            && Reaches(w, z) && z.t == db.t && (outcome.Accepted? ==> z != w)
            && (z != w ==>
                  && d.Launch? && EnabledUser(w, Subscribe(Subs.AttemptFor(r, d.sub, baseUrl), d.reactivate, true))
                  && z == ApplySubscribe(w, Subs.AttemptFor(r, d.sub, baseUrl), d.reactivate, true))
  {
    var (db1, d) := Subs.Decide(Db(w.t, faults, w.now), r);
    DecideReads(Db(w.t, faults, w.now), r);
    if d.Reject? {
      Stay(w);
      z := w;
    } else {
      assert db1 == Db(w.t, db1.faults, w.now);
      z := StartIsRun(w, db1.faults, Subs.AttemptFor(r, d.sub, baseUrl), d.reactivate, true);
    }
  }

  /** ... and over gRPC, with any faults of the network, Redis and SMTP: a run that
      counts every accepted mail. */
  lemma SubscribeInlineIsRun(w: World, faults: seq<Fault>, e: N.Env, network: Fault, r: Subs.Request, baseUrl: string)
    returns (z: World)
    requires FreshRequest(w, r, baseUrl) && Agree(w, e)
    ensures var (db, e1, _) := Subs.SubscribeInline(Db(w.t, faults, w.now), e, network, r, baseUrl);
            && Reaches(w, z) && z.t == db.t && Agree(z, e1) && |e.accepted| <= |e1.accepted|
            && InlineMoved(w, z, ConfirmMessage(r.token), |e1.accepted| - |e.accepted|)
  {
    var (db1, d) := Subs.Decide(Db(w.t, faults, w.now), r);
    DecideReads(Db(w.t, faults, w.now), r);
    if d.Reject? {
      Stay(w);
      z := w;
    } else {
      assert db1 == Db(w.t, db1.faults, w.now);
      z := StartSyncIsRun(w, db1.faults, e, network, Subs.AttemptFor(r, d.sub, baseUrl), d.reactivate);
    }
  }

  /** Confirm, whatever fails, leaves the state as it was or is one confirmation;
      answering Done means that the row of the token is confirmed. */
  lemma ConfirmIsRun(w: World, faults: seq<Fault>, x: Subs.T.Tracking, token: Token) returns (z: World)
    ensures var (db, _, outcome) := Subs.Confirm(Db(w.t, faults, w.now), x, token);
            && Reaches(w, z) && z.t == db.t && (z == w || z == ApplyUser(w, Confirm(token)))
            && (outcome.Done? ==> exists i :: i in z.t.subs && z.t.subs[i].token == token && z.t.subs[i].confirmed)
  {
    var (db, _, _) := Subs.Confirm(Db(w.t, faults, w.now), x, token);
    var found := Subs.FindToken(w.t, token);
    if found.Some? { assert found.value in db.t.subs; }
    if db.t == w.t {
      Stay(w);
      z := w;
    } else {
      Step(w, User(Confirm(token)));
      z := Apply(w, User(Confirm(token)));
    }
  }

  /** Unsubscribe, whatever fails, leaves the state as it was or is one deletion,
      and it is the deletion whenever it answers Done. */
  lemma UnsubscribeIsRun(w: World, faults: seq<Fault>, token: Token) returns (z: World)
    ensures var (db, outcome) := Subs.Unsubscribe(Db(w.t, faults, w.now), token);
            && Reaches(w, z) && z.t == db.t && (z == w || z == ApplyUser(w, Unsubscribe(token)))
            && (outcome.Done? ==> z == ApplyUser(w, Unsubscribe(token)) && TokenTaken(w.t, token) && !TokenTaken(z.t, token))
  {
    var (db, outcome) := Subs.Unsubscribe(Db(w.t, faults, w.now), token);
    if db.t == w.t && !outcome.Done? {
      Stay(w);
      z := w;
    } else {
      Step(w, User(Unsubscribe(token)));
      z := Apply(w, User(Unsubscribe(token)));
    }
  }
}
