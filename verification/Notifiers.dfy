/** The notifier: the queue consumer and its synchronous gRPC sibling over one
    mail server and one dedup store. */
module Notifiers {
  import opened Model
  import opened Stores
  import opened Protocol

  /** What the notifier touches: the live dedup keys, the outcomes the next SMTP
      attempts will have, the mails accepted and the replies that reached the
      broker, and the faults ahead of Redis and of reply publishes. */
  datatype Env = Env(
    dedup: set<MessageId>, redis: seq<Fault>,
    smtp: seq<bool>, accepted: seq<Delivery>,
    replies: seq<Reply>, broker: seq<Fault>)

  const MAX_ATTEMPTS: nat := 3

  // -------------------------------------------------------------------- dedup

  /** AlreadyProcessed: (read succeeded, seen). */
  function ReadKey(e: Env, k: MessageId): (Env, bool, bool) {
    (e.(redis := Tail(e.redis)), Head(e.redis).Works?, k in e.dedup)
  }

  /** MarkProcessed; its error is only logged. */
  function MarkKey(e: Env, k: MessageId): Env {
    e.(redis := Tail(e.redis), dedup := if Head(e.redis).FailsClean? then e.dedup else e.dedup + {k})
  }

  // ---------------------------------------------------------------------- mail

  /** One SMTP attempt; an exhausted script means the server is down. */
  function Attempt(e: Env, d: Delivery): (Env, bool) {
    var ok := e.smtp != [] && e.smtp[0];
    (e.(smtp := Tail(e.smtp), accepted := if ok then e.accepted + [d] else e.accepted), ok)
  }

  /** Up to `left` attempts; the context is canceled after `patience` of them. */
  function Attempts(e: Env, d: Delivery, left: nat, patience: nat): (Env, bool)
    decreases left
  {
    if left == 0 then (e, true)
    else
      var (e1, ok) := Attempt(e, d);
      if ok then (e1, true)
      else if left == 1 || patience <= 1 then (e1, false)
      else Attempts(e1, d, left - 1, patience - 1)
  }

  // ------------------------------------------------------------------- replies

  function PublishReply(e: Env, r: Reply): (Env, bool) {
    (e.(broker := Tail(e.broker), replies := if Head(e.broker).FailsClean? then e.replies else e.replies + [r]),
     Head(e.broker).Works?)
  }

  // ------------------------------------------------------------------- handlers

  /** dispatch: true means processed, false an error for the dead-letter queue. */
  function Dispatch(e: Env, d: Delivery, patience: nat): (Env, bool) {
    if d.key.RoutingConfirm? && d.body.ConfirmationRequest? then
      var (e1, sent) := Attempts(e, d, MAX_ATTEMPTS, patience);
      if d.body.sagaId == "" then (e1, sent)
      else
        var (e2, replied) := PublishReply(e1, Reply(d.body.sagaId, if sent then Sent else NotSent));
        (e2, sent || replied)
    else if d.key.RoutingRelease? && d.body.ReleaseRequest? then Attempt(e, d)
    else (e, false)
  }

  /** handle: true is an ack, false a nack. */
  function Handle(e: Env, d: Delivery, patience: nat): (Env, bool) {
    var (e1, read, seen) := if d.messageId.NoId? then (e, true, false) else ReadKey(e, d.messageId);
    if read && seen then
      (if IsSagaCommand(d) then PublishReply(e1, Reply(d.body.sagaId, Sent)).0 else e1, true)
    else
      var (e2, ok) := Dispatch(e1, d, patience);
      (if ok && !d.messageId.NoId? then MarkKey(e2, d.messageId) else e2, ok)
  }

  /** SendConfirmation over gRPC: one attempt, no reply, an error on failure. */
  function SendConfirmation(e: Env, d: Delivery, complete: bool): (Env, bool) {
    if !complete then (e, false)
    else
      var (e1, read, seen) := ReadKey(e, d.messageId);
      if read && seen then (e1, true)
      else
        var (e2, ok) := Attempt(e1, d);
        (if ok then MarkKey(e2, d.messageId) else e2, ok)
  }

  // --------------------------------------------------------------- the services

  class Deduper {
    var keys: map<MessageId, nat>       // key -> moment it expires
    var now: nat
    var faults: seq<Fault>
    const ttl: nat

    constructor (ttl: nat)
      requires ttl > 0
      ensures Live() == {} && this.ttl == ttl
    { this.ttl, keys, now, faults := ttl, map[], 0, []; }

    function Live(): set<MessageId> reads this { set k | k in keys && now < keys[k] }

    method AlreadyProcessed(id: MessageId) returns (ok: bool, seen: bool)
      modifies this
      ensures ok == Head(old(faults)).Works? && seen == (id in old(Live()))
      ensures Live() == old(Live()) && faults == Tail(old(faults)) && keys == old(keys) && now == old(now)
    {
      ok, seen := Head(faults).Works?, id in Live();
      faults := Tail(faults);
    }

    method MarkProcessed(id: MessageId) returns (ok: bool)
      requires ttl > 0
      modifies this
      ensures ok == Head(old(faults)).Works?
      ensures Live() == if Head(old(faults)).FailsClean? then old(Live()) else old(Live()) + {id}
      ensures keys == if Head(old(faults)).FailsClean? then old(keys) else old(keys)[id := now + ttl]
      ensures faults == Tail(old(faults)) && now == old(now)
    {
      ok := Head(faults).Works?;
      if !Head(faults).FailsClean? { keys := keys[id := now + ttl]; }
      faults := Tail(faults);
    }

    /** Time only removes keys; a key is live exactly for ttl after its last mark. */
    method Advance(elapsed: nat)
      modifies this
      ensures now == old(now) + elapsed && keys == old(keys) && faults == old(faults)
      ensures forall k :: k in Live() <==> k in old(Live()) && old(now) + elapsed < old(keys)[k]
    {
      now := now + elapsed;
    }
  }

  class Mailer {
    var outcomes: seq<bool>
    var accepted: seq<Delivery>

    method SendEmail(d: Delivery) returns (ok: bool)
      modifies this
      ensures ok == (old(outcomes) != [] && old(outcomes)[0])
      ensures outcomes == Tail(old(outcomes))
      ensures accepted == if ok then old(accepted) + [d] else old(accepted)
    {
      ok := outcomes != [] && outcomes[0];
      outcomes := Tail(outcomes);
      if ok { accepted := accepted + [d]; }
    }
  }

  class Replier {
    var replies: seq<Reply>
    var faults: seq<Fault>

    method ReplyConfirmation(saga: SagaId, status: ReplyStatus) returns (ok: bool)
      modifies this
      ensures ok == Head(old(faults)).Works? && faults == Tail(old(faults))
      ensures replies == if Head(old(faults)).FailsClean? then old(replies) else old(replies) + [Reply(saga, status)]
    {
      ok := Head(faults).Works?;
      if !Head(faults).FailsClean? { replies := replies + [Reply(saga, status)]; }
      faults := Tail(faults);
    }
  }

  class Consumer {
    const sender: Mailer
    const dedup: Deduper
    const rep: Replier

    constructor (sender: Mailer, dedup: Deduper, rep: Replier)
      ensures this.sender == sender && this.dedup == dedup && this.rep == rep
    { this.sender, this.dedup, this.rep := sender, dedup, rep; }

    function Value(): Env
      reads this, sender, dedup, rep
    {
      Env(dedup.Live(), dedup.faults, sender.outcomes, sender.accepted, rep.replies, rep.faults)
    }

    method SendWithRetry(d: Delivery, patience: nat) returns (ok: bool)
      modifies sender
      ensures (Value(), ok) == Attempts(old(Value()), d, MAX_ATTEMPTS, patience)
    {
      ok := false;
      var attempt := 1;
      while attempt <= MAX_ATTEMPTS
        invariant 1 <= attempt <= MAX_ATTEMPTS
        invariant attempt == 1 || attempt <= patience
        invariant Attempts(Value(), d, MAX_ATTEMPTS + 1 - attempt, if patience < attempt then 0 else patience + 1 - attempt) ==
                  Attempts(old(Value()), d, MAX_ATTEMPTS, patience)
      {
        ok := sender.SendEmail(d);
        if ok { return true; }
        if attempt == MAX_ATTEMPTS { break; }
        if patience <= attempt { return false; }
        attempt := attempt + 1;
      }
    }

    method DispatchDelivery(d: Delivery, patience: nat) returns (ok: bool)
      modifies sender, rep
      ensures (Value(), ok) == Dispatch(old(Value()), d, patience)
    {
      match d.key {
        case RoutingConfirm =>
          if !d.body.ConfirmationRequest? { return false; }
          var sent := SendWithRetry(d, patience);
          var replied := true;
          if d.body.sagaId != "" {
            replied := rep.ReplyConfirmation(d.body.sagaId, if sent then Sent else NotSent);
          }
          if !sent {
            if d.body.sagaId == "" { return false; }
            if !replied { return false; }
          }
          return true;
        case RoutingRelease =>
          if !d.body.ReleaseRequest? { return false; }
          ok := sender.SendEmail(d);
        case RoutingUnknown =>
          return false;
      }
    }

    method HandleDelivery(d: Delivery, patience: nat) returns (ack: bool)
      requires dedup.ttl > 0
      modifies sender, dedup, rep
      ensures (Value(), ack) == Handle(old(Value()), d, patience)
    {
      if !d.messageId.NoId? {
        var read, seen := dedup.AlreadyProcessed(d.messageId);
        if read && seen {
          if IsSagaCommand(d) {
            var _ := rep.ReplyConfirmation(d.body.sagaId, Sent);
          }
          return true;
        }
      }
      ack := DispatchDelivery(d, patience);
      if !ack { return; }
      if !d.messageId.NoId? {
        var _ := dedup.MarkProcessed(d.messageId);
      }
    }

    /** The gRPC server shares the mail server and the dedup store. */
    method ServeConfirmation(d: Delivery, complete: bool) returns (ok: bool)
      requires dedup.ttl > 0
      modifies sender, dedup
      ensures (Value(), ok) == SendConfirmation(old(Value()), d, complete)
    {
      if !complete { return false; }
      var read, seen := dedup.AlreadyProcessed(d.messageId);
      if read && seen { return true; }
      ok := sender.SendEmail(d);
      if !ok { return; }
      var _ := dedup.MarkProcessed(d.messageId);
    }
  }

  // ------------------------------------------------------------------ theorems

  /** The retries from `e` to `z` were exactly `n` attempts: all but the last
      failed, the last decides, and a failure means the budget or the context
      ended there. */
  ghost predicate RetryRound(e: Env, z: Env, ok: bool, left: nat, patience: nat, n: nat) {
    var budget := if patience == 0 then 1 else if patience < left then patience else left;
    && 1 <= n <= budget
    && z.smtp == (if n <= |e.smtp| then e.smtp[n..] else [])
    && (forall i | 0 <= i < n - 1 && i < |e.smtp| :: !e.smtp[i])
    && (ok <==> n <= |e.smtp| && e.smtp[n - 1])
    && (!ok ==> n == budget)
  }

  /** sendWithRetry accepts at most one mail and succeeds exactly when it does. */
  lemma {:induction false} RetriesAcceptOnce(e: Env, d: Delivery, left: nat, patience: nat)
    requires left > 0
    ensures var (z, ok) := Attempts(e, d, left, patience);
            && z.accepted == (if ok then e.accepted + [d] else e.accepted)
            && z == e.(smtp := z.smtp, accepted := z.accepted)
            && exists n: nat :: RetryRound(e, z, ok, left, patience, n)
    decreases left
  {
    var (e1, ok) := Attempt(e, d);
    if ok || left == 1 || patience <= 1 {
      assert RetryRound(e, e1, ok, left, patience, 1);
    } else {
      RetriesAcceptOnce(e1, d, left - 1, patience - 1);
      var (z, sent) := Attempts(e1, d, left - 1, patience - 1);
      var n: nat :| RetryRound(e1, z, sent, left - 1, patience - 1, n);
      RoundCons(e, e1, z, sent, left, patience, n);
    }
  }

  lemma RoundCons(e: Env, e1: Env, z: Env, ok: bool, left: nat, patience: nat, n: nat)
    requires left > 1 && patience > 1 && e1.smtp == Tail(e.smtp) && (e.smtp != [] ==> !e.smtp[0])
    requires RetryRound(e1, z, ok, left - 1, patience - 1, n)
    ensures RetryRound(e, z, ok, left, patience, n + 1)
  {
    forall i | 0 <= i < n && i < |e.smtp| ensures !e.smtp[i] {
      if i > 0 { assert e1.smtp[i - 1] == e.smtp[i]; }
    }
  }

  /** A delivery sends at most one mail, and none when its key was read as seen;
      an acked saga command reported its outcome or was mailed; and a key is
      marked only for an acked delivery. */
  lemma HandleOutcome(e: Env, d: Delivery, patience: nat)
    ensures var (z, ack) := Handle(e, d, patience);
            && (z.accepted == e.accepted || z.accepted == e.accepted + [d])
            && (!d.messageId.NoId? && Head(e.redis).Works? && d.messageId in e.dedup ==> ack && z.accepted == e.accepted)
            && (z.dedup == e.dedup || (ack && !d.messageId.NoId? && z.dedup == e.dedup + {d.messageId}))
            && (z.replies == e.replies ||
                (IsSagaCommand(d) && exists status :: z.replies == e.replies + [Reply(d.body.sagaId, status)]))
            && (!ack && IsSagaCommand(d) ==> z.accepted == e.accepted)
  {
    DispatchOutcome(e, d, patience);
    DispatchOutcome(e.(redis := Tail(e.redis)), d, patience);
    var z := Handle(e, d, patience).0;
    if z.replies != e.replies {
      assert z.replies == e.replies + [Reply(d.body.sagaId, Sent)] || z.replies == e.replies + [Reply(d.body.sagaId, NotSent)];
    }
  }

  /** The branch behind a false "sent", exactly: a delivery marks its key without
      any mail accepted if and only if it is a saga command whose send failed,
      whose "failed" reply went out, and whose mark took effect. */
  lemma MarksUnsentExactly(e: Env, d: Delivery, patience: nat)
    requires !d.messageId.NoId? && d.messageId !in e.dedup
    ensures var z := Handle(e, d, patience).0;
            d.messageId in z.dedup && z.accepted == e.accepted <==>
              && IsSagaCommand(d)
              && !Attempts(e.(redis := Tail(e.redis)), d, MAX_ATTEMPTS, patience).1
              && Head(e.broker).Works?
              && !Head(Tail(e.redis)).FailsClean?
  {
    RetriesAcceptOnce(e.(redis := Tail(e.redis)), d, MAX_ATTEMPTS, patience);
  }

  lemma DispatchOutcome(e: Env, d: Delivery, patience: nat)
    ensures var (z, ok) := Dispatch(e, d, patience);
            && (z.accepted == e.accepted || z.accepted == e.accepted + [d]) && z.dedup == e.dedup && z.redis == e.redis
            && (z.replies == e.replies ||
                (IsSagaCommand(d) && (z.replies == e.replies + [Reply(d.body.sagaId, Sent)]
                                      || z.replies == e.replies + [Reply(d.body.sagaId, NotSent)])))
            && (!ok && IsSagaCommand(d) ==> z.accepted == e.accepted)
  {
    RetriesAcceptOnce(e, d, MAX_ATTEMPTS, patience);
  }

  // ------------------------------------------------ what a delivery does, exactly

  /** One of the next `n` mails is accepted. */
  predicate GoesOut(smtp: seq<bool>, n: nat) { exists i :: 0 <= i < n && i < |smtp| && smtp[i] }

  /** Three attempts, fewer when the context is canceled, but always one. */
  function Budget(patience: nat): nat {
    if patience == 0 then 1 else if patience < 3 then patience else 3
  }

  lemma RetriesSendExactly(e: Env, d: Delivery, patience: nat)
    ensures var (z, sent) := Attempts(e, d, MAX_ATTEMPTS, patience);
            && sent == GoesOut(e.smtp, Budget(patience))
            && z == e.(smtp := z.smtp, accepted := e.accepted + (if sent then [d] else []))
  {
    RetriesAcceptOnce(e, d, MAX_ATTEMPTS, patience);
    var (z, sent) := Attempts(e, d, MAX_ATTEMPTS, patience);
    var n: nat :| RetryRound(e, z, sent, MAX_ATTEMPTS, patience, n);
    if sent { assert e.smtp[n - 1]; }
  }

  /** The key was read, and is there. */
  predicate ReadAsSeen(e: Env, d: Delivery) {
    !d.messageId.NoId? && At(e.redis, 0).Works? && d.messageId in e.dedup
  }

  /** The keys after a delivery with this verdict. The read, if there is an id, was
      the first call to Redis and the mark is the second. */
  function KeysAfter(e: Env, d: Delivery, ack: bool): set<MessageId> {
    if ack && !d.messageId.NoId? && !At(e.redis, 1).FailsClean? then e.dedup + {d.messageId} else e.dedup
  }

  /** A release is mailed in one attempt: acked if and only if the mail is accepted,
      and then marked. */
  lemma ReleaseIsMailedExactly(e: Env, d: Delivery, patience: nat)
    requires d.key.RoutingRelease? && d.body.ReleaseRequest? && !ReadAsSeen(e, d)
    ensures var (z, ack) := Handle(e, d, patience);
            && ack == (|e.smtp| > 0 && e.smtp[0])
            && z.accepted == (if ack then e.accepted + [d] else e.accepted)
            && z.smtp == (if |e.smtp| > 0 then e.smtp[1..] else [])
            && z.dedup == KeysAfter(e, d, ack)
            && z.replies == e.replies && z.broker == e.broker
  {}

  /** A confirmation is mailed if and only if one of its three attempts within the
      context succeeds. A saga hears of either outcome, and the delivery is acked if
      and only if the mail went out or the saga was told that it did not. */
  lemma ConfirmationIsMailedExactly(e: Env, d: Delivery, patience: nat)
    requires d.key.RoutingConfirm? && d.body.ConfirmationRequest? && !ReadAsSeen(e, d)
    ensures var (z, ack) := Handle(e, d, patience);
            var sent := GoesOut(e.smtp, Budget(patience));
            var saga := d.body.sagaId != "";
            && ack == (sent || (saga && At(e.broker, 0).Works?))
            && z.accepted == (if sent then e.accepted + [d] else e.accepted)
            && z.replies == (if saga && !At(e.broker, 0).FailsClean?
                             then e.replies + [Reply(d.body.sagaId, if sent then Sent else NotSent)] else e.replies)
            && z.dedup == KeysAfter(e, d, ack)
  {
    var e1 := if d.messageId.NoId? then e else e.(redis := Tail(e.redis));
    RetriesSendExactly(e1, d, patience);
  }

  /** A repeated delivery is acked without a mail; only a saga hears of it again.
      Anything that is no request is refused without a trace. */
  lemma OthersAreNotMailed(e: Env, d: Delivery, patience: nat)
    ensures var (z, ack) := Handle(e, d, patience);
            && (ReadAsSeen(e, d) ==>
                  && ack && z.accepted == e.accepted && z.smtp == e.smtp && z.dedup == e.dedup
                  && z.replies == (if d.key.RoutingConfirm? && d.body.ConfirmationRequest? && d.body.sagaId != ""
                                      && !At(e.broker, 0).FailsClean?
                                   then e.replies + [Reply(d.body.sagaId, Sent)] else e.replies))
            && (!ReadAsSeen(e, d) && !(d.key.RoutingConfirm? && d.body.ConfirmationRequest?)
                && !(d.key.RoutingRelease? && d.body.ReleaseRequest?) ==>
                  !ack && z == e.(redis := z.redis))
  {}

  /** The gRPC server: OK if and only if the request is complete and its key was
      read as seen or its one mail is accepted; only the latter is marked. */
  lemma ServedExactly(e: Env, d: Delivery, complete: bool)
    requires !d.messageId.NoId?
    ensures var (z, ok) := SendConfirmation(e, d, complete);
            var mailed := complete && !ReadAsSeen(e, d) && |e.smtp| > 0 && e.smtp[0];
            && ok == (complete && (ReadAsSeen(e, d) || mailed))
            && z.accepted == (if mailed then e.accepted + [d] else e.accepted)
            && z.dedup == KeysAfter(e, d, mailed)
            && z.replies == e.replies && z.broker == e.broker
  {}
}
