/** The durable event pipeline as a step system: receive, relay under a lease, publish and
    confirm, settle, deliver, process, retry or dead-letter, acknowledge, crash, replay. Any
    number of events, relays and deliveries interleave; time only moves forward. */
module Pipeline {
  import opened Common
  import Inbox
  import Outbox
  import Broker

  datatype Config = Config(maxAttempts: nat, tiers: seq<nat>, batchSize: nat, leaseDuration: int)

  /** A lease as its relay holds it: which grant of the row, and the deadline it came with. */
  datatype Grant = Grant(event: EventId, number: nat, until: int)

  /** The publication of the first lease of a cycle. `Confirmed` and `Refused` carry the instant
      at which the publish call returned. */
  datatype Progress = Sending | Accepted | Confirmed(at: int) | Refused(permanent: bool, at: int)

  /** One relay process. `at` is when it started its publication window. */
  datatype Relay = Idle | Begun(at: int) | Cycle(at: int, leases: seq<Grant>, progress: Progress)

  /** History used only to state properties: grants confirmed by the broker, grants settled, and
      for every event the attempt numbers of its retry dispositions since the last reset. */
  datatype Log = Log(
    confirmed: set<(EventId, nat)>,
    settled: set<(EventId, nat)>,
    retries: map<EventId, seq<nat>>)

  datatype State = State(
    now: int,
    inbox: map<EventId, Inbox.Row>,
    outbox: Outbox.Table,
    relays: map<Owner, Relay>,
    broker: Broker.State,
    log: Log)

  const INITIAL := State(0, map[], map[], map[], Broker.EMPTY, Log({}, {}, map[]))

  datatype Step =
    | Tick(elapsed: nat)
    | Receive(event: EventId, providerKey: nat, handled: bool)
    | BeginCycle(owner: Owner)
    | Lease(owner: Owner, ids: seq<EventId>)
    | Accept(owner: Owner)
    | Confirm(owner: Owner)
    | Refuse(owner: Owner, permanent: bool)
    | Settle(owner: Owner, backoff: nat)
    | StopCycle(owner: Owner)
    | Arrive(event: EventId)
    | Deliver(tag: Broker.Tag, event: EventId)
    | Commit(tag: Broker.Tag)
    | Fail(tag: Broker.Tag, terminal: bool)
    | Republish(tag: Broker.Tag)
    | Ack(tag: Broker.Tag)
    | Requeue(tag: Broker.Tag)
    | TierExpires(waiting: Broker.Waiting)
    | Replay(event: EventId)

  function RelayOf(s: State, o: Owner): Relay { if o in s.relays then s.relays[o] else Idle }

  /** The relay is publishing the first lease of its cycle. */
  predicate Publishing(r: Relay) { r.Cycle? && |r.leases| > 0 }

  predicate DeliveredAt(b: Broker.State, tag: Broker.Tag) {
    tag in b.unacked && b.unacked[tag].phase.Delivered?
  }

  /** Reprocess accepts a failed event, or a pending one whose publication failed, and commits
      only when both reset statements match exactly one row. */
  predicate Replayable(s: State, e: EventId) {
    && e in s.inbox && e in s.outbox
    && (s.inbox[e].status.Failed? || (s.inbox[e].status.Pending? && s.outbox[e].status.Failed?))
    && Outbox.Resettable(s.outbox[e])
  }

  predicate Enabled(c: Config, s: State, step: Step) {
    match step
    case Tick(_) => true
    // A second arrival of the same provider event inserts nothing.
    case Receive(e, key, _) =>
      e !in s.inbox && e !in s.outbox && forall x | x in s.inbox :: s.inbox[x].providerKey != key
    case BeginCycle(o) => RelayOf(s, o).Idle?
    case Lease(o, ids) =>
      && RelayOf(s, o).Begun? && |ids| <= c.batchSize && Distinct(ids)
      && forall id | id in ids :: id in s.outbox && Outbox.Due(s.outbox[id], s.now)
    case Accept(o) => Publishing(RelayOf(s, o)) && s.relays[o].progress.Sending?
    case Confirm(o) => Publishing(RelayOf(s, o)) && s.relays[o].progress.Accepted?
    // A permanent error means the message could not even be encoded, so nothing was sent.
    case Refuse(o, permanent) =>
      && Publishing(RelayOf(s, o))
      && (s.relays[o].progress.Sending? || (s.relays[o].progress.Accepted? && !permanent))
    case Settle(o, _) =>
      Publishing(RelayOf(s, o)) && (s.relays[o].progress.Confirmed? || s.relays[o].progress.Refused?)
    case StopCycle(o) => !RelayOf(s, o).Idle?
    // A publication whose confirm never came may still reach the queue, as may any message
    // this system did not produce.
    case Arrive(_) => true
    case Deliver(tag, e) => tag !in s.broker.unacked && e in s.broker.main
    case Commit(tag) => DeliveredAt(s.broker, tag) && s.broker.unacked[tag].event in s.inbox
    case Fail(tag, _) => DeliveredAt(s.broker, tag)
    case Republish(tag) =>
      && tag in s.broker.unacked && s.broker.unacked[tag].phase.Decided?
      && !s.broker.unacked[tag].phase.disposition.Done?
    case Ack(tag) => tag in s.broker.unacked && Broker.Acknowledgeable(s.broker.unacked[tag])
    case Requeue(tag) => tag in s.broker.unacked
    case TierExpires(w) => w in s.broker.waiting
    case Replay(e) => Replayable(s, e)
  }

  /** The leases a claim hands to its relay. */
  function Granted(t: Outbox.Table, ids: seq<EventId>, until: int): (gs: seq<Grant>)
    requires forall id | id in ids :: id in t
    ensures |gs| == |ids|
    ensures forall i | 0 <= i < |ids| :: gs[i] == Grant(ids[i], t[ids[i]].grant + 1, until)
  {
    if ids == [] then []
    else Granted(t, ids[..|ids| - 1], until)
         + [Grant(ids[|ids| - 1], t[ids[|ids| - 1]].grant + 1, until)]
  }

  function OutcomeOf(p: Progress, backoff: nat): Outbox.Outcome
    requires p.Confirmed? || p.Refused?
  {
    if p.Confirmed? then Outbox.MarkPublished
    else if p.permanent then Outbox.MarkFailed
    else Outbox.MarkRetryable(backoff)
  }

  function SetRelay(s: State, o: Owner, r: Relay): State { s.(relays := s.relays[o := r]) }

  function Retries(l: Log, e: EventId): seq<nat> { if e in l.retries then l.retries[e] else [] }

  /** One failed attempt: the inbox row is updated and the disposition decided from it. */
  function Failed(c: Config, s: State, tag: Broker.Tag, terminal: bool): State
    requires tag in s.broker.unacked
  {
    var e := s.broker.unacked[tag].event;
    if e !in s.inbox then
      s.(broker := Broker.SetPhase(s.broker, tag, Broker.Decided(Inbox.Classify(0, true), 0)))
    else
      var r := Inbox.RecordFailure(s.inbox[e], terminal, c.maxAttempts);
      var d := Inbox.Classify(r.attempts, r.status.Failed?);
      s.(inbox := s.inbox[e := r],
         broker := Broker.SetPhase(s.broker, tag, Broker.Decided(d, r.attempts)),
         log := if d.Retry?
                then s.log.(retries := s.log.retries[e := Retries(s.log, e) + [r.attempts]])
                else s.log)
  }

  function Settled(s: State, o: Owner, backoff: nat): State
    requires Publishing(RelayOf(s, o)) && (s.relays[o].progress.Confirmed? || s.relays[o].progress.Refused?)
  {
    var r := s.relays[o];
    var g := r.leases[0];
    var (t, affected) := Outbox.Settle(s.outbox, g.event, o, OutcomeOf(r.progress, backoff), s.now);
    s.(outbox := t,
       relays := s.relays[o := r.(leases := r.leases[1..], progress := Sending)],
       log := if affected == 1 then s.log.(settled := s.log.settled + {(g.event, g.number)}) else s.log)
  }

  function Replayed(s: State, e: EventId): State
    requires Replayable(s, e)
  {
    s.(inbox := s.inbox[e := Inbox.ResetForReplay(s.inbox[e])],
       outbox := s.outbox[e := Outbox.ResetRow(s.outbox[e], s.now)],
       log := if s.inbox[e].status.Failed? then s.log.(retries := s.log.retries[e := []]) else s.log)
  }

  function Next(c: Config, s: State, step: Step): State
    requires Enabled(c, s, step)
  {
    match step
    case Tick(d) => s.(now := s.now + d)
    case Receive(e, key, handled) =>
      s.(inbox := s.inbox[e := Inbox.NewRow(key, handled)],
         outbox := if handled then s.outbox[e := Outbox.NewRow(s.now)] else s.outbox)
    case BeginCycle(o) => SetRelay(s, o, Begun(s.now))
    case Lease(o, ids) =>
      var until := s.now + c.leaseDuration;
      s.(outbox := Outbox.LeaseAll(s.outbox, Elements(ids), o, until),
         relays := s.relays[o := Cycle(s.relays[o].at, Granted(s.outbox, ids, until), Sending)])
    case Accept(o) =>
      SetRelay(s, o, s.relays[o].(progress := Accepted))
      .(broker := Broker.Arrive(s.broker, s.relays[o].leases[0].event))
    case Confirm(o) =>
      var g := s.relays[o].leases[0];
      SetRelay(s, o, s.relays[o].(progress := Confirmed(s.now)))
      .(log := s.log.(confirmed := s.log.confirmed + {(g.event, g.number)}))
    case Refuse(o, permanent) => SetRelay(s, o, s.relays[o].(progress := Refused(permanent, s.now)))
    case Settle(o, backoff) => Settled(s, o, backoff)
    case StopCycle(o) => SetRelay(s, o, Idle)
    case Arrive(e) => s.(broker := Broker.Arrive(s.broker, e))
    case Deliver(tag, e) => s.(broker := Broker.Deliver(s.broker, tag, e))
    case Commit(tag) =>
      var e := s.broker.unacked[tag].event;
      s.(inbox := s.inbox[e := Inbox.MarkProcessed(s.inbox[e])],
         broker := Broker.SetPhase(s.broker, tag, Broker.Decided(Inbox.Done, 0)))
    case Fail(tag, terminal) => Failed(c, s, tag, terminal)
    case Republish(tag) => s.(broker := Broker.Republish(c.tiers, s.broker, tag))
    case Ack(tag) => s.(broker := Broker.Ack(s.broker, tag))
    case Requeue(tag) => s.(broker := Broker.Requeue(s.broker, tag))
    case TierExpires(w) => s.(broker := Broker.TierExpired(s.broker, w))
    case Replay(e) => Replayed(s, e)
  }

  /** The state after a sequence of steps, or `None` when one of them is not enabled. */
  function Run(c: Config, steps: seq<Step>): Option<State> {
    if steps == [] then Some(INITIAL)
    else
      var before := Run(c, steps[..|steps| - 1]);
      if before.Some? && Enabled(c, before.value, steps[|steps| - 1])
      then Some(Next(c, before.value, steps[|steps| - 1])) else None
  }
}
