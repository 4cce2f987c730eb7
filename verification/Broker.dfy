/** What RabbitMQ holds for the consumer: the main queue, the retry tiers, the dead-letter
    queue and the deliveries nobody acknowledged yet. */
module Broker {
  import opened Common
  import Inbox

  type Tag = nat

  /** How far the consumer got with a delivery. `Copied` means a confirmed copy already sits in
      a tier or in the dead-letter queue, so acknowledging the original drops nothing. */
  datatype Phase = Delivered | Decided(disposition: Inbox.Disposition, attempts: nat) | Copied

  datatype Delivery = Delivery(event: EventId, phase: Phase)

  datatype Waiting = Waiting(tier: nat, event: EventId)

  datatype State = State(
    main: multiset<EventId>,
    waiting: multiset<Waiting>,
    dlq: multiset<EventId>,
    unacked: map<Tag, Delivery>)

  const EMPTY := State(multiset{}, multiset{}, multiset{}, map[])

  /** TierFor: the last tier repeats once the ladder is exhausted. */
  function TierFor(tiers: seq<nat>, attempts: nat): Option<nat> {
    if |tiers| == 0 then None
    else Some(if attempts == 0 then 0 else if attempts - 1 >= |tiers| then |tiers| - 1 else attempts - 1)
  }

  function Arrive(b: State, e: EventId): State { b.(main := b.main + multiset{e}) }

  function Deliver(b: State, tag: Tag, e: EventId): State {
    b.(main := b.main - multiset{e}, unacked := b.unacked[tag := Delivery(e, Delivered)])
  }

  function SetPhase(b: State, tag: Tag, phase: Phase): State
    requires tag in b.unacked
  {
    b.(unacked := b.unacked[tag := b.unacked[tag].(phase := phase)])
  }

  /** The confirmed copy of a retry or dead-letter republication. With no tier at all a retry
      falls through to the dead-letter queue. */
  function Republish(tiers: seq<nat>, b: State, tag: Tag): State
    requires tag in b.unacked && b.unacked[tag].phase.Decided? && !b.unacked[tag].phase.disposition.Done?
  {
    var Delivery(e, phase) := b.unacked[tag];
    var copied := SetPhase(b, tag, Copied);
    var tier := if phase.disposition.Retry? then TierFor(tiers, phase.attempts) else None;
    if tier.Some? then copied.(waiting := copied.waiting + multiset{Waiting(tier.value, e)})
    else copied.(dlq := copied.dlq + multiset{e})
  }

  predicate Acknowledgeable(d: Delivery) {
    d.phase.Copied? || (d.phase.Decided? && d.phase.disposition.Done?)
  }

  function Ack(b: State, tag: Tag): State { b.(unacked := b.unacked - {tag}) }

  /** The channel closed before the delivery was acknowledged: it goes back to the queue. */
  function Requeue(b: State, tag: Tag): State
    requires tag in b.unacked
  {
    b.(main := b.main + multiset{b.unacked[tag].event}, unacked := b.unacked - {tag})
  }

  function TierExpired(b: State, w: Waiting): State {
    b.(main := b.main + multiset{w.event}, waiting := b.waiting - multiset{w})
  }

  // ---- Live copies ----------------------------------------------------------------------

  /** A delivery still stands for its event unless it was decided away or copied. */
  predicate LivePhase(p: Phase) { p.Delivered? || (p.Decided? && p.disposition.Retry?) }

  ghost predicate Live(b: State, e: EventId) {
    || e in b.main
    || (exists w :: w in b.waiting && w.event == e)
    || (exists tag :: tag in b.unacked && b.unacked[tag].event == e && LivePhase(b.unacked[tag].phase))
  }
}
