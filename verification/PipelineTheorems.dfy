/** What the pipeline promises over every run: nothing accepted is lost, leases are exclusive,
    timely settlements always succeed, retries are bounded. */
module PipelineTheorems {
  import opened Common
  import opened Pipeline
  import opened PipelineProofs
  import Inbox
  import Outbox
  import Broker

  /** What the configuration loader enforces (at least one retry tier, strictly ascending
      positive delays, a budget above one, a lease that covers a whole batch). */
  predicate Configured(c: Config) {
    && c.maxAttempts > 1
    && |c.tiers| > 0 && c.tiers[0] > 0
    && (forall i, j :: 0 <= i < j < |c.tiers| ==> c.tiers[i] < c.tiers[j])
    && c.batchSize > 0
    && c.leaseDuration >= c.batchSize * Outbox.PUBLISH_BUDGET + Outbox.SETTLEMENT_RESERVE
  }

  lemma StepKeeps(c: Config, s: State, step: Step)
    requires |c.tiers| > 0 && c.leaseDuration >= 0 && Enabled(c, s, step) && Inv(c, s)
    ensures Inv(c, Next(c, s, step))
  {
    if ConsumerStep(step) { ConsumerKeeps(c, s, step); }
    else if step.Tick? || step.BeginCycle? || step.StopCycle? { TickKeeps(c, s, step); }
    else if step.Receive? { ReceiveKeeps(c, s, step); }
    else if step.Lease? { LeaseKeeps(c, s, step); }
    else if step.Settle? { SettleKeeps(c, s, step); }
    else if step.Replay? { ReplayKeeps(c, s, step); }
    else { PublishKeeps(c, s, step); }
  }

  lemma {:induction false} InvHolds(c: Config, steps: seq<Step>)
    requires |c.tiers| > 0 && c.leaseDuration >= 0 && Run(c, steps).Some?
    ensures Inv(c, Run(c, steps).value)
  {
    if steps != [] {
      var init := steps[..|steps| - 1];
      InvHolds(c, init);
      StepKeeps(c, Run(c, init).value, steps[|steps| - 1]);
    }
  }

  /** No accepted event is ever lost, whatever crashes, expires, is redelivered or replayed. */
  lemma NoAcceptedEventIsLost(c: Config, steps: seq<Step>, e: EventId)
    requires Configured(c) && Run(c, steps).Some? && e in Run(c, steps).value.outbox
    ensures var s := Run(c, steps).value;
            && e in s.inbox
            && (|| s.inbox[e].status.Processed? || s.inbox[e].status.Failed?
                || s.outbox[e].status.Pending? || s.outbox[e].status.Publishing? || s.outbox[e].status.Failed?
                || Broker.Live(s.broker, e))
  {
    InvHolds(c, steps);
  }

  /** Rows are never deleted. */
  lemma StepKeepsRows(c: Config, s: State, step: Step)
    requires Enabled(c, s, step) && s.outbox.Keys <= s.inbox.Keys
    ensures s.outbox.Keys <= Next(c, s, step).outbox.Keys
  {
  }

  lemma {:induction false} RowsPersist(c: Config, steps: seq<Step>, more: seq<Step>, e: EventId)
    requires |c.tiers| > 0 && c.leaseDuration >= 0 && Run(c, steps + more).Some?
    ensures Run(c, steps).Some?
    ensures e in Run(c, steps).value.outbox ==> e in Run(c, steps + more).value.outbox
  {
    if more == [] {
      assert steps + more == steps;
    } else {
      var n := |steps + more| - 1;
      assert (steps + more)[..n] == steps + more[..|more| - 1];
      RowsPersist(c, steps, more[..|more| - 1], e);
      InvHolds(c, (steps + more)[..n]);
      StepKeepsRows(c, Run(c, (steps + more)[..n]).value, (steps + more)[n]);
    }
  }

  /** From the moment an event is accepted, in every later state of the run, it is processed or
      failed, or its message is still to be published, or a live copy of it is in the broker. */
  lemma AcceptedEventIsNeverLost(c: Config, steps: seq<Step>, more: seq<Step>, e: EventId, key: nat)
    requires Configured(c) && Run(c, steps + [Receive(e, key, true)] + more).Some?
    ensures var s := Run(c, steps + [Receive(e, key, true)] + more).value;
            && e in s.inbox && e in s.outbox
            && (|| s.inbox[e].status.Processed? || s.inbox[e].status.Failed?
                || !s.outbox[e].status.Published? || Broker.Live(s.broker, e))
  {
    var accepted := steps + [Receive(e, key, true)];
    RowsPersist(c, accepted, more, e);
    assert accepted[..|steps|] == steps;
    NoAcceptedEventIsLost(c, accepted + more, e);
  }

  // ---- Why at least one retry tier is needed ---------------------------------------------

  lemma Extend(c: Config, steps: seq<Step>, step: Step, s: State) returns (longer: seq<Step>)
    requires Run(c, steps) == Some(s) && Enabled(c, s, step)
    ensures Run(c, longer) == Some(Next(c, s, step))
  {
    longer := steps + [step];
    assert longer[..|steps|] == steps;
  }

  function OneEvent(row: Outbox.Row, relay: Relay, b: Broker.State, l: Log): State {
    State(0, map[0 := Inbox.NewRow(0, true)], map[0 := row], map[0 := relay], b, l)
  }

  lemma ReachBegun(c: Config) returns (steps: seq<Step>)
    ensures Run(c, steps) == Some(OneEvent(Outbox.NewRow(0), Begun(0), Broker.EMPTY, Log({}, {}, map[])))
  {
    steps := Extend(c, [], Receive(0, 0, true), INITIAL);
    steps := Extend(c, steps, BeginCycle(0), Run(c, steps).value);
  }

  /** One event is received and leased to relay 0. */
  lemma ReachLeased(c: Config) returns (steps: seq<Step>)
    requires c.batchSize > 0 && c.leaseDuration > 0
    ensures Run(c, steps) == Some(OneEvent(
      Outbox.Row(Outbox.Publishing, 0, Some(Outbox.Lock(0, c.leaseDuration)), 0, 1),
      Cycle(0, [Grant(0, 1, c.leaseDuration)], Sending), Broker.EMPTY, Log({}, {}, map[])))
  {
    steps := ReachBegun(c);
    var before := OneEvent(Outbox.NewRow(0), Begun(0), Broker.EMPTY, Log({}, {}, map[]));
    steps := Extend(c, steps, Lease(0, [0]), before);
    var after := Next(c, before, Lease(0, [0]));
    assert after.outbox ==
      map[0 := Outbox.Row(Outbox.Publishing, 0, Some(Outbox.Lock(0, c.leaseDuration)), 0, 1)];
    assert after.relays[0].leases == [Grant(0, 1, c.leaseDuration)];
    assert after.relays == map[0 := after.relays[0]];
  }

  lemma ReachConfirmed(c: Config) returns (steps: seq<Step>)
    requires c.batchSize > 0 && c.leaseDuration > 0
    ensures Run(c, steps) == Some(OneEvent(
      Outbox.Row(Outbox.Publishing, 0, Some(Outbox.Lock(0, c.leaseDuration)), 0, 1),
      Cycle(0, [Grant(0, 1, c.leaseDuration)], Confirmed(0)),
      Broker.Arrive(Broker.EMPTY, 0), Log({(0, 1)}, {}, map[])))
  {
    steps := ReachLeased(c);
    var leased := Run(c, steps).value;
    var grant := Grant(0, 1, c.leaseDuration);
    var accepted := OneEvent(leased.outbox[0], Cycle(0, [grant], Accepted), Broker.Arrive(Broker.EMPTY, 0), leased.log);
    assert Next(c, leased, Accept(0)) == accepted by {
      assert Next(c, leased, Accept(0)).relays == accepted.relays;
    }
    steps := Extend(c, steps, Accept(0), leased);
    assert Next(c, accepted, Confirm(0)).relays == map[0 := Cycle(0, [grant], Confirmed(0))];
    assert Next(c, accepted, Confirm(0)).log.confirmed == {(0, 1)};
    steps := Extend(c, steps, Confirm(0), accepted);
  }

  /** It is published, confirmed and settled; its copy waits in the main queue. */
  lemma ReachPublished(c: Config) returns (steps: seq<Step>)
    requires c.batchSize > 0 && c.leaseDuration > 0
    ensures Run(c, steps) == Some(OneEvent(
      Outbox.Row(Outbox.Published, 1, None, 0, 1), Cycle(0, [], Sending),
      Broker.Arrive(Broker.EMPTY, 0), Log({(0, 1)}, {(0, 1)}, map[])))
  {
    steps := ReachConfirmed(c);
    var before := Run(c, steps).value;
    steps := Extend(c, steps, Settle(0, 0), before);
    var after := Next(c, before, Settle(0, 0));
    assert after.outbox == map[0 := Outbox.Row(Outbox.Published, 1, None, 0, 1)];
    assert after.relays[0].leases == [] && after.log.settled == {(0, 1)};
    assert after.relays == map[0 := Cycle(0, [], Sending)];
  }

  /** Its only delivery fails for a transient reason. */
  lemma ReachRetry(c: Config) returns (steps: seq<Step>)
    requires c.maxAttempts > 1 && c.batchSize > 0 && c.leaseDuration > 0
    ensures Run(c, steps).Some?
    ensures var s := Run(c, steps).value;
            && 0 in s.inbox && s.inbox[0].status.Pending?
            && 0 in s.outbox && s.outbox[0].status.Published?
            && s.broker == Broker.EMPTY.(unacked := map[0 := Broker.Delivery(0, Broker.Decided(Inbox.Retry, 1))])
  {
    steps := ReachPublished(c);
    steps := Extend(c, steps, Deliver(0, 0), Run(c, steps).value);
    var before := Run(c, steps).value;
    assert before.broker == Broker.EMPTY.(unacked := map[0 := Broker.Delivery(0, Broker.Delivered)]);
    steps := Extend(c, steps, Fail(0, false), before);
    assert Next(c, before, Fail(0, false)).broker.unacked ==
      map[0 := Broker.Delivery(0, Broker.Decided(Inbox.Retry, 1))];
  }

  /** Without a tier the copy of a transient failure falls through to the dead-letter queue while
      the inbox row stays pending: the event is lost to processing. */
  lemma NoTierLosesEvent(c: Config) returns (steps: seq<Step>)
    requires c.tiers == [] && c.maxAttempts > 1 && c.batchSize > 0 && c.leaseDuration > 0
    ensures Run(c, steps).Some? && !NoLoss(Run(c, steps).value)
  {
    steps := ReachRetry(c);
    steps := Extend(c, steps, Republish(0), Run(c, steps).value);
    var copied := Run(c, steps).value;
    assert copied.broker.unacked == map[0 := Broker.Delivery(0, Broker.Copied)];
    steps := Extend(c, steps, Ack(0), copied);
    var s := Run(c, steps).value;
    assert 0 in s.outbox && !Safe(s, 0);
  }

  /** No event is ever lost in any run if and only if a retry tier is configured. */
  lemma NoLossIffTier(c: Config)
    requires c.maxAttempts > 1 && c.batchSize > 0 && c.leaseDuration > 0
    ensures (forall steps :: Run(c, steps).Some? ==> NoLoss(Run(c, steps).value)) <==> |c.tiers| > 0
  {
    if |c.tiers| > 0 {
      forall steps | Run(c, steps).Some? ensures NoLoss(Run(c, steps).value) { InvHolds(c, steps); }
    } else {
      var lost := NoTierLosesEvent(c);
    }
  }

  // ---- Leases -------------------------------------------------------------------------------

  /** Lease exclusivity: in any run a settlement takes effect exactly when the relay's own grant
      has not expired, and then that grant is the most recent one of the row and was never
      settled before; a publication is recorded only under the grant the broker confirmed. */
  lemma SettlementIsExclusive(c: Config, steps: seq<Step>, o: Owner, backoff: nat)
    requires |c.tiers| > 0 && c.leaseDuration >= 0 && Run(c, steps).Some?
    requires Enabled(c, Run(c, steps).value, Settle(o, backoff))
    ensures var s := Run(c, steps).value;
            var g := s.relays[o].leases[0];
            var after := Next(c, s, Settle(o, backoff));
            && g.event in s.outbox
            && ((g.event, g.number) in after.log.settled && (g.event, g.number) !in s.log.settled
                <==> s.now < g.until)
            && (s.now < g.until ==>
                && Current(s.outbox, o, g) && g.number == s.outbox[g.event].grant
                && after.outbox[g.event].lock == None
                && (after.outbox[g.event].status.Published? <==> s.relays[o].progress.Confirmed?)
                && (after.outbox[g.event].status.Failed? <==>
                    s.relays[o].progress.Refused? && s.relays[o].progress.permanent))
            && (s.now >= g.until ==> after.outbox == s.outbox)
            && (s.relays[o].progress.Confirmed? ==> (g.event, g.number) in s.log.confirmed)
  {
    InvHolds(c, steps);
    var s := Run(c, steps).value;
    var g := s.relays[o].leases[0];
    assert RelayOk(c, s.outbox, s.now, o, s.relays[o]) && PublicationOk(s, o);
    assert GrantOk(s.outbox, s.now, o, g);
  }

  /** Every published row was confirmed by the broker under the row's latest grant. */
  lemma PublishedMeansConfirmed(c: Config, steps: seq<Step>, e: EventId)
    requires |c.tiers| > 0 && c.leaseDuration >= 0 && Run(c, steps).Some?
    requires e in Run(c, steps).value.outbox && Run(c, steps).value.outbox[e].status.Published?
    ensures var s := Run(c, steps).value; (e, s.outbox[e].grant) in s.log.confirmed
  {
    InvHolds(c, steps);
  }

  /** Two relays never both hold an unexpired grant of one row. */
  lemma OneHolder(c: Config, steps: seq<Step>, o: Owner, p: Owner, i: nat, j: nat)
    requires |c.tiers| > 0 && c.leaseDuration >= 0 && Run(c, steps).Some?
    requires var s := Run(c, steps).value;
             && RelayOf(s, o).Cycle? && RelayOf(s, p).Cycle?
             && i < |s.relays[o].leases| && j < |s.relays[p].leases|
             && s.relays[o].leases[i].event == s.relays[p].leases[j].event
             && s.now < s.relays[o].leases[i].until && s.now < s.relays[p].leases[j].until
    ensures o == p && i == j
  {
    InvHolds(c, steps);
    var s := Run(c, steps).value;
    assert RelayOk(c, s.outbox, s.now, o, s.relays[o]) && RelayOk(c, s.outbox, s.now, p, s.relays[p]);
    assert GrantOk(s.outbox, s.now, o, s.relays[o].leases[i]);
    assert GrantOk(s.outbox, s.now, p, s.relays[p].leases[j]);
  }

  /** A replay never takes a row from a relay that may still settle it. */
  lemma ReplayNeverSteals(c: Config, steps: seq<Step>, e: EventId, o: Owner, i: nat)
    requires |c.tiers| > 0 && c.leaseDuration >= 0 && Run(c, steps).Some?
    requires var s := Run(c, steps).value;
             && Enabled(c, s, Replay(e))
             && RelayOf(s, o).Cycle? && i < |s.relays[o].leases| && s.relays[o].leases[i].event == e
    ensures Run(c, steps).value.relays[o].leases[i].until <= Run(c, steps).value.now
  {
    InvHolds(c, steps);
    var s := Run(c, steps).value;
    assert RelayOk(c, s.outbox, s.now, o, s.relays[o]);
    assert GrantOk(s.outbox, s.now, o, s.relays[o].leases[i]);
  }

  /** If the publish call returned inside the publication window and the settlement runs within
      the reserve after it, the lease is not lost, whatever other relays and operators did. */
  lemma TimelySettlementSucceeds(c: Config, steps: seq<Step>, o: Owner, backoff: nat)
    requires |c.tiers| > 0 && c.leaseDuration >= 0 && Run(c, steps).Some?
    requires Enabled(c, Run(c, steps).value, Settle(o, backoff))
    requires var s := Run(c, steps).value;
             var r := s.relays[o];
             && r.progress.at <= r.at + c.leaseDuration - Outbox.SETTLEMENT_RESERVE
             && s.now < r.progress.at + Outbox.SETTLEMENT_RESERVE
    ensures var s := Run(c, steps).value;
            var g := s.relays[o].leases[0];
            (g.event, g.number) in Next(c, s, Settle(o, backoff)).log.settled
  {
    InvHolds(c, steps);
    SettlementIsExclusive(c, steps, o, backoff);
    var s := Run(c, steps).value;
    assert RelayOk(c, s.outbox, s.now, o, s.relays[o]);
  }

  // ---- Retries ------------------------------------------------------------------------------

  /** The delays an event waited through since its last reset. */
  function Delays(tiers: seq<nat>, rs: seq<nat>): (ds: seq<nat>)
    requires |tiers| > 0
    ensures |ds| == |rs|
    ensures forall i :: 0 <= i < |rs| ==>
      (var tier := Broker.TierFor(tiers, rs[i]).value; tier < |tiers| && ds[i] == tiers[tier])
  {
    if rs == [] then []
    else Delays(tiers, rs[..|rs| - 1]) + [tiers[Broker.TierFor(tiers, rs[|rs| - 1]).value]]
  }

  lemma {:induction false} IncreasingIsShort(rs: seq<nat>)
    requires forall i, j :: 0 <= i < j < |rs| ==> rs[i] < rs[j]
    requires forall i :: 0 <= i < |rs| ==> 1 <= rs[i]
    ensures rs != [] ==> |rs| <= rs[|rs| - 1]
  {
    if |rs| > 1 { IncreasingIsShort(rs[..|rs| - 1]); }
  }

  /** Between two resets of its attempt count an event gets at most `maxAttempts - 1` retry
      dispositions, and its delays never decrease. */
  lemma RetriesAreBounded(c: Config, steps: seq<Step>, e: EventId)
    requires Configured(c) && Run(c, steps).Some?
    ensures var rs := Retries(Run(c, steps).value.log, e);
            && |rs| <= c.maxAttempts - 1
            && forall i, j :: 0 <= i < j < |rs| ==> Delays(c.tiers, rs)[i] <= Delays(c.tiers, rs)[j]
  {
    InvHolds(c, steps);
    var s := Run(c, steps).value;
    var rs := Retries(s.log, e);
    if e in s.log.retries { assert RetriesOk(c, rs, s.inbox[e].attempts); }
    IncreasingIsShort(rs);
    DelaysGrow(c, rs);
  }

  lemma DelaysGrow(c: Config, rs: seq<nat>)
    requires Configured(c) && forall i, j :: 0 <= i < j < |rs| ==> rs[i] < rs[j]
    ensures forall i, j :: 0 <= i < j < |rs| ==> Delays(c.tiers, rs)[i] <= Delays(c.tiers, rs)[j]
  {
    forall i, j | 0 <= i < j < |rs| ensures Delays(c.tiers, rs)[i] <= Delays(c.tiers, rs)[j] {
      var p, q := Broker.TierFor(c.tiers, rs[i]).value, Broker.TierFor(c.tiers, rs[j]).value;
      assert p <= q;
    }
  }

  /** The processed flag is not absorbing: exactly one step takes it away, a failure recorded for
      the event that is terminal or spends the budget. */
  lemma ProcessedSurvivesIff(c: Config, s: State, step: Step, e: EventId)
    requires Enabled(c, s, step) && e in s.inbox && s.inbox[e].status.Processed?
    ensures var after := Next(c, s, step);
            && e in after.inbox
            && (after.inbox[e].status.Processed?
                <==> !(step.Fail? && s.broker.unacked[step.tag].event == e
                       && (step.terminal || s.inbox[e].attempts + 1 >= c.maxAttempts)))
            && (!after.inbox[e].status.Processed? ==> after.inbox[e].status.Failed?)
  {
  }
}
