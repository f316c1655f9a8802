/** What the steps of each actor leave alone, stated once. */
module Frames {
  import opened Model
  import opened Protocol

  ghost predicate OnlyRelay(w: World, z: World) {
    z == w.(t := w.t.(outbox := z.t.outbox), commands := z.commands, relay := z.relay, published := z.published)
  }

  ghost predicate OnlyNotifier(w: World, z: World) {
    z == w.(commands := z.commands, replies := z.replies, dedup := z.dedup, notifier := z.notifier, mail := z.mail,
            audit := w.audit.(refused := z.audit.refused, unsent := z.audit.unsent))
  }

  ghost predicate OnlyConsumer(w: World, z: World) {
    z == w.(t := w.t.(sagas := z.t.sagas, subs := z.t.subs), replies := z.replies, consumer := z.consumer,
            audit := w.audit.(lost := z.audit.lost, compensated := z.audit.compensated, failures := z.audit.failures))
  }

  ghost predicate OnlySweeper(w: World, z: World) {
    z == w.(t := z.t, sweeper := z.sweeper,
            audit := w.audit.(compensated := z.audit.compensated, failures := z.audit.failures))
  }

  ghost predicate OnlySync(w: World, z: World) {
    z == w.(t := w.t.(sagas := z.t.sagas, subs := z.t.subs), sync := z.sync, server := z.server, dedup := z.dedup,
            mail := z.mail, audit := w.audit.(compensated := z.audit.compensated, failures := z.audit.failures))
  }

  ghost predicate OnlyOther(w: World, z: World) {
    z == w.(commands := z.commands, replies := z.replies, dedup := z.dedup, mail := z.mail, now := z.now,
            audit := w.audit.(lost := z.audit.lost))
  }

  lemma RelayMoves(w: World, a: RelayAction)
    requires EnabledRelay(w, a)
    ensures OnlyRelay(w, ApplyRelay(w, a))
  {}

  lemma NotifierMoves(w: World, a: NotifierAction)
    requires EnabledNotifier(w, a)
    ensures OnlyNotifier(w, ApplyNotifier(w, a))
  {}

  lemma ConsumerMoves(w: World, a: ConsumerAction)
    requires EnabledConsumer(w, a)
    ensures OnlyConsumer(w, ApplyConsumer(w, a))
  {}

  /** Everything but Write only moves the consumer and its queue. */
  lemma ConsumerReads(w: World, a: ConsumerAction)
    requires EnabledConsumer(w, a) && !a.Write?
    ensures ApplyConsumer(w, a).t == w.t && ApplyConsumer(w, a).audit.compensated == w.audit.compensated
  {}

  lemma SweeperMoves(w: World, a: SweeperAction)
    requires EnabledSweeper(w, a)
    ensures OnlySweeper(w, ApplySweeper(w, a))
  {}

  lemma SyncMoves(w: World, a: SyncAction)
    requires EnabledSync(w, a)
    ensures OnlySync(w, ApplySync(w, a))
  {}

  /** Everything but SyncWrite leaves the tables alone. */
  lemma SyncCalls(w: World, a: SyncAction)
    requires EnabledSync(w, a) && !a.SyncWrite?
    ensures ApplySync(w, a).t == w.t && ApplySync(w, a).audit == w.audit
  {}

  lemma OtherMoves(w: World, a: OtherAction)
    requires EnabledOther(w, a)
    ensures OnlyOther(w, ApplyOther(w, a))
  {}
}
