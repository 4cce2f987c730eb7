/** Invariants of the event pipeline, kept by every step, and what they mean over whole runs. */
module PipelineProofs {
  import opened Common
  import opened Pipeline
  import Inbox
  import Outbox
  import Broker

  // ---- Live copies under each broker move ------------------------------------------------

  lemma LiveArrive(b: Broker.State, e: EventId, x: EventId)
    ensures Broker.Live(Broker.Arrive(b, e), x) <==> Broker.Live(b, x) || x == e
  {
  }

  lemma LiveDeliver(b: Broker.State, tag: Broker.Tag, e: EventId, x: EventId)
    requires tag !in b.unacked && e in b.main && Broker.Live(b, x)
    ensures Broker.Live(Broker.Deliver(b, tag, e), x)
  {
    var after := Broker.Deliver(b, tag, e);
    if x == e {
      assert tag in after.unacked && after.unacked[tag].event == x;
    } else if t :| t in b.unacked && b.unacked[t].event == x && Broker.LivePhase(b.unacked[t].phase) {
      assert t in after.unacked && after.unacked[t] == b.unacked[t];
    }
  }

  lemma LiveSetPhase(b: Broker.State, tag: Broker.Tag, phase: Broker.Phase, x: EventId)
    requires tag in b.unacked
    ensures Broker.LivePhase(phase) ==> Broker.Live(Broker.SetPhase(b, tag, phase), b.unacked[tag].event)
    ensures Broker.Live(b, x)
      && (x != b.unacked[tag].event || Broker.LivePhase(phase) || !Broker.LivePhase(b.unacked[tag].phase))
      ==> Broker.Live(Broker.SetPhase(b, tag, phase), x)
  {
    var after := Broker.SetPhase(b, tag, phase);
    if Broker.LivePhase(phase) {
      assert tag in after.unacked && after.unacked[tag].event == b.unacked[tag].event;
    }
    if t :| t in b.unacked && b.unacked[t].event == x && Broker.LivePhase(b.unacked[t].phase) {
      assert t in after.unacked && after.unacked[t].event == x;
    }
  }

  /** A republication never loses the event: the copy is there before the original steps aside. */
  lemma LiveRepublish(tiers: seq<nat>, b: Broker.State, tag: Broker.Tag, x: EventId)
    requires |tiers| > 0 && Broker.Live(b, x)
    requires tag in b.unacked && b.unacked[tag].phase.Decided? && !b.unacked[tag].phase.disposition.Done?
    ensures Broker.Live(Broker.Republish(tiers, b, tag), x)
  {
    var after := Broker.Republish(tiers, b, tag);
    if b.unacked[tag].phase.disposition.Retry? && x == b.unacked[tag].event {
      var w := Broker.Waiting(Broker.TierFor(tiers, b.unacked[tag].phase.attempts).value, x);
      assert w in after.waiting && w.event == x;
    } else {
      LiveSetPhase(b, tag, Broker.Copied, x);
      LiveMonotone(Broker.SetPhase(b, tag, Broker.Copied), after, x);
    }
  }

  lemma LiveMonotone(b: Broker.State, after: Broker.State, x: EventId)
    requires Broker.Live(b, x)
    requires b.main <= after.main && b.waiting <= after.waiting && b.unacked == after.unacked
    ensures Broker.Live(after, x)
  {
    if w :| w in b.waiting && w.event == x { assert w in after.waiting; }
  }

  lemma LiveAck(b: Broker.State, tag: Broker.Tag, x: EventId)
    requires tag in b.unacked && Broker.Acknowledgeable(b.unacked[tag]) && Broker.Live(b, x)
    ensures Broker.Live(Broker.Ack(b, tag), x)
  {
    if t :| t in b.unacked && b.unacked[t].event == x && Broker.LivePhase(b.unacked[t].phase) {
      assert t in Broker.Ack(b, tag).unacked;
    }
  }

  lemma LiveRequeue(b: Broker.State, tag: Broker.Tag, x: EventId)
    requires tag in b.unacked && Broker.Live(b, x)
    ensures Broker.Live(Broker.Requeue(b, tag), x)
  {
    var after := Broker.Requeue(b, tag);
    if t :| t in b.unacked && b.unacked[t].event == x && Broker.LivePhase(b.unacked[t].phase) {
      assert t == tag || t in after.unacked;
    }
  }

  lemma LiveTierExpired(b: Broker.State, w: Broker.Waiting, x: EventId)
    requires w in b.waiting && Broker.Live(b, x)
    ensures Broker.Live(Broker.TierExpired(b, w), x)
  {
    var after := Broker.TierExpired(b, w);
    if v :| v in b.waiting && v.event == x {
      assert v == w || v in after.waiting;
    }
  }

  // ---- The invariant -----------------------------------------------------------------------

  /** Processing of the event is over, or some live copy will still cause it. */
  ghost predicate Safe(s: State, e: EventId) {
    e in s.inbox && (s.inbox[e].status.Processed? || s.inbox[e].status.Failed? || Broker.Live(s.broker, e))
  }

  ghost predicate NoLoss(s: State) {
    forall e :: e in s.outbox && s.outbox[e].status.Published? ==> Safe(s, e)
  }

  ghost predicate RowsOk(s: State) {
    && s.outbox.Keys <= s.inbox.Keys
    && (forall e :: e in s.outbox ==> Outbox.LeaseCheck(s.outbox[e]))
    && (forall e, x :: e in s.inbox && x in s.inbox && s.inbox[e].providerKey == s.inbox[x].providerKey ==> e == x)
  }

  /** The row is still leased under exactly this grant. */
  predicate Current(t: Outbox.Table, o: Owner, g: Grant) {
    && g.event in t && t[g.event].grant == g.number
    && t[g.event].lock == Some(Outbox.Lock(o, g.until))
  }

  ghost predicate GrantOk(t: Outbox.Table, now: int, o: Owner, g: Grant) {
    && g.event in t && g.number <= t[g.event].grant
    && (t[g.event].lock.Some? && t[g.event].lock.value.owner == o ==> Current(t, o, g))
    && (g.until > now ==> Current(t, o, g))
  }

  ghost predicate RelayOk(c: Config, t: Outbox.Table, now: int, o: Owner, r: Relay) {
    && (r.Begun? ==> r.at <= now)
    && (r.Cycle? ==>
        && (forall i :: 0 <= i < |r.leases| ==>
              GrantOk(t, now, o, r.leases[i]) && r.leases[i].until >= r.at + c.leaseDuration)
        && (forall i, j :: 0 <= i < j < |r.leases| ==> r.leases[i].event != r.leases[j].event))
  }

  ghost predicate RelaysOk(c: Config, s: State) {
    forall o :: o in s.relays ==> RelayOk(c, s.outbox, s.now, o, s.relays[o])
  }

  /** What a publication accepted by the broker guarantees while its grant is current. */
  ghost predicate PublicationOk(s: State, o: Owner) {
    var r := RelayOf(s, o);
    Publishing(r) ==>
      && (r.progress.Confirmed? ==> (r.leases[0].event, r.leases[0].number) in s.log.confirmed)
      && ((r.progress.Accepted? || r.progress.Confirmed?) && Current(s.outbox, o, r.leases[0])
          ==> Safe(s, r.leases[0].event))
  }

  ghost predicate PublicationsOk(s: State) { forall o :: o in s.relays ==> PublicationOk(s, o) }

  ghost predicate LogOk(s: State) {
    && (forall e :: e in s.outbox && s.outbox[e].status.Published? ==> (e, s.outbox[e].grant) in s.log.confirmed)
    && (forall e :: e in s.outbox && s.outbox[e].status.Publishing? ==> (e, s.outbox[e].grant) !in s.log.settled)
    && (forall p :: p in s.log.settled ==> p.0 in s.outbox && p.1 <= s.outbox[p.0].grant)
  }

  /** Retry dispositions since the last reset: increasing attempt numbers below the budget. */
  ghost predicate RetriesOk(c: Config, rs: seq<nat>, attempts: nat) {
    && (forall i :: 0 <= i < |rs| ==> 1 <= rs[i] < c.maxAttempts && rs[i] <= attempts)
    && (forall i, j :: 0 <= i < j < |rs| ==> rs[i] < rs[j])
  }

  ghost predicate AllRetriesOk(c: Config, s: State) {
    forall e :: e in s.log.retries ==> e in s.inbox && RetriesOk(c, s.log.retries[e], s.inbox[e].attempts)
  }

  ghost predicate Inv(c: Config, s: State) {
    RowsOk(s) && NoLoss(s) && RelaysOk(c, s) && PublicationsOk(s) && LogOk(s) && AllRetriesOk(c, s)
  }

  // ---- Safety of events under the consumer side ---------------------------------------------

  /** The steps that move only inbox rows and broker copies. */
  predicate ConsumerStep(step: Step) {
    step.Arrive? || step.Deliver? || step.Commit? || step.Fail? || step.Republish? || step.Ack?
    || step.Requeue? || step.TierExpires?
  }

  lemma SafeKept(c: Config, s: State, step: Step, x: EventId)
    requires |c.tiers| > 0 && ConsumerStep(step) && Enabled(c, s, step) && Safe(s, x)
    ensures Safe(Next(c, s, step), x)
  {
    if s.inbox[x].status.Processed? || s.inbox[x].status.Failed? {
    } else {
      match step
      case Arrive(e) => LiveArrive(s.broker, e, x);
      case Deliver(tag, e) => LiveDeliver(s.broker, tag, e, x);
      case Commit(tag) => LiveSetPhase(s.broker, tag, Broker.Decided(Inbox.Done, 0), x);
      case Fail(tag, terminal) =>
        LiveSetPhase(s.broker, tag, Next(c, s, step).broker.unacked[tag].phase, x);
      case Republish(tag) => LiveRepublish(c.tiers, s.broker, tag, x);
      case Ack(tag) => LiveAck(s.broker, tag, x);
      case Requeue(tag) => LiveRequeue(s.broker, tag, x);
      case TierExpires(w) => LiveTierExpired(s.broker, w, x);
    }
  }

  lemma ConsumerKeepsRetries(c: Config, s: State, step: Step)
    requires ConsumerStep(step) && Enabled(c, s, step) && AllRetriesOk(c, s)
    ensures AllRetriesOk(c, Next(c, s, step))
  {
    var after := Next(c, s, step);
    forall e | e in after.log.retries
      ensures e in after.inbox && RetriesOk(c, after.log.retries[e], after.inbox[e].attempts)
    {
      if e in s.log.retries { assert RetriesOk(c, s.log.retries[e], s.inbox[e].attempts); }
    }
  }

  lemma ConsumerKeeps(c: Config, s: State, step: Step)
    requires |c.tiers| > 0 && ConsumerStep(step) && Enabled(c, s, step) && Inv(c, s)
    ensures Inv(c, Next(c, s, step))
  {
    var after := Next(c, s, step);
    ConsumerKeepsRetries(c, s, step);
    assert after.outbox == s.outbox && after.relays == s.relays && after.now == s.now;
    assert after.log.confirmed == s.log.confirmed && after.log.settled == s.log.settled;
    forall x | Safe(s, x) ensures Safe(after, x) { SafeKept(c, s, step, x); }
    PublicationsKept(s, after);
  }

  lemma PublicationsKept(s: State, after: State)
    requires after.outbox == s.outbox && after.relays == s.relays && after.log.confirmed == s.log.confirmed
    requires PublicationsOk(s) && forall x | Safe(s, x) :: Safe(after, x)
    ensures PublicationsOk(after)
  {
    forall o | o in after.relays ensures PublicationOk(after, o) { assert PublicationOk(s, o); }
  }

  // ---- Relay side -----------------------------------------------------------------------------

  lemma TickKeeps(c: Config, s: State, step: Step)
    requires (step.Tick? || step.BeginCycle? || step.StopCycle?) && Enabled(c, s, step) && Inv(c, s)
    ensures Inv(c, Next(c, s, step))
  {
    var after := Next(c, s, step);
    forall o | o in after.relays ensures RelayOk(c, after.outbox, after.now, o, after.relays[o]) {
      if o in s.relays { assert RelayOk(c, s.outbox, s.now, o, s.relays[o]); }
    }
    forall o | o in after.relays ensures PublicationOk(after, o) {
      if o in s.relays { assert PublicationOk(s, o); }
    }
  }

  lemma ReceiveKeeps(c: Config, s: State, step: Step)
    requires step.Receive? && Enabled(c, s, step) && Inv(c, s)
    ensures Inv(c, Next(c, s, step))
  {
    var after := Next(c, s, step);
    forall o | o in after.relays ensures RelayOk(c, after.outbox, after.now, o, after.relays[o]) {
      assert RelayOk(c, s.outbox, s.now, o, s.relays[o]);
    }
    forall o | o in after.relays ensures PublicationOk(after, o) { assert PublicationOk(s, o); }
  }

  lemma PublishKeeps(c: Config, s: State, step: Step)
    requires (step.Accept? || step.Confirm? || step.Refuse?) && Enabled(c, s, step) && Inv(c, s)
    ensures Inv(c, Next(c, s, step))
  {
    var after := Next(c, s, step);
    var o := step.owner;
    forall x ensures Safe(s, x) ==> Safe(after, x) {
      if step.Accept? { LiveArrive(s.broker, s.relays[o].leases[0].event, x); }
    }
    forall p | p in after.relays ensures RelayOk(c, after.outbox, after.now, p, after.relays[p]) {
      assert RelayOk(c, s.outbox, s.now, p, s.relays[p]);
    }
    forall p | p in after.relays ensures PublicationOk(after, p) {
      assert PublicationOk(s, p) && RelayOk(c, s.outbox, s.now, p, s.relays[p]);
      if step.Accept? && p == o {
        var e := s.relays[o].leases[0].event;
        assert GrantOk(s.outbox, s.now, o, s.relays[o].leases[0]);
        assert e in after.broker.main;
      }
    }
  }

  lemma LeaseKeepsRelays(c: Config, s: State, step: Step)
    requires step.Lease? && c.leaseDuration >= 0 && Enabled(c, s, step) && Inv(c, s)
    ensures RelaysOk(c, Next(c, s, step))
  {
    var after := Next(c, s, step);
    forall p | p in after.relays ensures RelayOk(c, after.outbox, after.now, p, after.relays[p]) {
      assert RelayOk(c, s.outbox, s.now, p, s.relays[p]);
      if p != step.owner { LeaseKeepsGrants(c, s, step, p); }
    }
  }

  lemma LeaseKeepsGrants(c: Config, s: State, step: Step, p: Owner)
    requires step.Lease? && c.leaseDuration >= 0 && Enabled(c, s, step) && Inv(c, s)
    requires p in s.relays && p != step.owner && RelayOk(c, s.outbox, s.now, p, s.relays[p])
    ensures var after := Next(c, s, step); RelayOk(c, after.outbox, after.now, p, s.relays[p])
  {
    var after := Next(c, s, step);
    if s.relays[p].Cycle? {
      forall i | 0 <= i < |s.relays[p].leases|
        ensures GrantOk(after.outbox, after.now, p, s.relays[p].leases[i])
      {
        assert GrantOk(s.outbox, s.now, p, s.relays[p].leases[i]);
      }
    }
  }

  lemma LeaseKeeps(c: Config, s: State, step: Step)
    requires step.Lease? && c.leaseDuration >= 0 && Enabled(c, s, step) && Inv(c, s)
    ensures Inv(c, Next(c, s, step))
  {
    var after := Next(c, s, step);
    LeaseKeepsRelays(c, s, step);
    forall p | p in after.relays ensures PublicationOk(after, p) {
      assert PublicationOk(s, p);
      if p != step.owner && Publishing(s.relays[p]) {
        assert RelayOk(c, s.outbox, s.now, p, s.relays[p]);
        assert GrantOk(s.outbox, s.now, p, s.relays[p].leases[0]);
      }
    }
  }

  /** A settlement changes at most the row it names, and leaves every other relay's grants as
      they were. */
  lemma SettleKeepsRelays(c: Config, s: State, step: Step)
    requires step.Settle? && Enabled(c, s, step) && Inv(c, s)
    ensures RelaysOk(c, Next(c, s, step))
  {
    var after := Next(c, s, step);
    var o := step.owner;
    var head := s.relays[o].leases[0];
    forall p | p in after.relays ensures RelayOk(c, after.outbox, after.now, p, after.relays[p]) {
      assert RelayOk(c, s.outbox, s.now, p, s.relays[p]);
      if s.relays[p].Cycle? {
        forall i | 0 <= i < |after.relays[p].leases|
          ensures GrantOk(after.outbox, after.now, p, after.relays[p].leases[i])
        {
          var g := after.relays[p].leases[i];
          assert GrantOk(s.outbox, s.now, p, g) by { assert g in s.relays[p].leases; }
        }
      }
    }
  }

  lemma SettleKeeps(c: Config, s: State, step: Step)
    requires step.Settle? && Enabled(c, s, step) && Inv(c, s)
    ensures Inv(c, Next(c, s, step))
  {
    SettleKeepsRelays(c, s, step);
    SettleKeepsPublications(c, s, step);
    SettleKeepsRows(c, s, step);
    SettleKeepsLog(c, s, step);
  }

  lemma SettleKeepsRows(c: Config, s: State, step: Step)
    requires step.Settle? && Enabled(c, s, step) && Inv(c, s)
    ensures RowsOk(Next(c, s, step)) && NoLoss(Next(c, s, step))
  {
    var o := step.owner;
    assert PublicationOk(s, o) && RelayOk(c, s.outbox, s.now, o, s.relays[o]);
    assert GrantOk(s.outbox, s.now, o, s.relays[o].leases[0]);
  }

  lemma SettleKeepsLog(c: Config, s: State, step: Step)
    requires step.Settle? && Enabled(c, s, step) && Inv(c, s)
    ensures LogOk(Next(c, s, step))
  {
    var o := step.owner;
    assert PublicationOk(s, o) && RelayOk(c, s.outbox, s.now, o, s.relays[o]);
    assert GrantOk(s.outbox, s.now, o, s.relays[o].leases[0]);
  }

  lemma SettleKeepsPublications(c: Config, s: State, step: Step)
    requires step.Settle? && Enabled(c, s, step) && Inv(c, s)
    ensures forall p | p in Next(c, s, step).relays :: PublicationOk(Next(c, s, step), p)
  {
    var after := Next(c, s, step);
    forall p | p in after.relays ensures PublicationOk(after, p) { assert PublicationOk(s, p); }
  }

  lemma ReplayKeepsRelays(c: Config, s: State, step: Step)
    requires step.Replay? && Enabled(c, s, step) && Inv(c, s)
    ensures RelaysOk(c, Next(c, s, step))
  {
    var after := Next(c, s, step);
    forall p | p in after.relays ensures RelayOk(c, after.outbox, after.now, p, after.relays[p]) {
      assert RelayOk(c, s.outbox, s.now, p, s.relays[p]);
      if s.relays[p].Cycle? {
        forall i | 0 <= i < |s.relays[p].leases|
          ensures GrantOk(after.outbox, after.now, p, s.relays[p].leases[i])
        {
          assert GrantOk(s.outbox, s.now, p, s.relays[p].leases[i]);
        }
      }
    }
  }

  lemma ReplayKeeps(c: Config, s: State, step: Step)
    requires step.Replay? && Enabled(c, s, step) && Inv(c, s)
    ensures Inv(c, Next(c, s, step))
  {
    var after := Next(c, s, step);
    ReplayKeepsRelays(c, s, step);
    forall p | p in after.relays ensures PublicationOk(after, p) { assert PublicationOk(s, p); }
    forall e | e in after.log.retries
      ensures e in after.inbox && RetriesOk(c, after.log.retries[e], after.inbox[e].attempts)
    {
      if e in s.log.retries { assert RetriesOk(c, s.log.retries[e], s.inbox[e].attempts); }
    }
  }
}
