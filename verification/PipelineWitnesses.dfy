/** A run, possible under every configuration, in which a processed event becomes failed. */
module PipelineWitnesses {
  import opened Common
  import opened Pipeline
  import opened PipelineTheorems
  import Broker
  import Inbox

  /** The event was processed, its row counts `attempts`, and one more copy waits in the queue. */
  predicate OneMoreCopy(s: State, attempts: nat) {
    && 0 in s.inbox && s.inbox[0].status.Processed? && s.inbox[0].attempts == attempts
    && s.broker == Broker.Arrive(Broker.EMPTY, 0)
  }

  /** A publication whose confirm came late left two copies of one message. */
  lemma ReachTwoCopies(c: Config) returns (steps: seq<Step>)
    requires Configured(c)
    ensures Run(c, steps).Some?
    ensures var s := Run(c, steps).value;
            0 in s.inbox && s.inbox[0] == Inbox.NewRow(0, true)
            && s.broker == Broker.Arrive(Broker.Arrive(Broker.EMPTY, 0), 0)
  {
    LeaseIsPositive(c);
    steps := ReachPublished(c);
    steps := Extend(c, steps, Arrive(0), Run(c, steps).value);
  }

  lemma LeaseIsPositive(c: Config)
    requires Configured(c)
    ensures c.leaseDuration > 0
  {
    MulMonotone(0, c.batchSize, 5_000_000_000);
  }

  /** One of them is processed. */
  lemma ReachProcessed(c: Config) returns (steps: seq<Step>)
    requires Configured(c)
    ensures Run(c, steps).Some? && OneMoreCopy(Run(c, steps).value, 1)
  {
    steps := ReachTwoCopies(c);
    steps := Extend(c, steps, Deliver(0, 0), Run(c, steps).value);
    steps := Extend(c, steps, Commit(0), Run(c, steps).value);
    steps := Extend(c, steps, Ack(0), Run(c, steps).value);
    assert Run(c, steps).value.broker.unacked == map[];
  }

  /** The other copy is delivered and fails for a transient reason, within the budget. */
  lemma FailDelivery(c: Config, steps: seq<Step>, attempts: nat) returns (longer: seq<Step>)
    requires Configured(c) && Run(c, steps).Some? && OneMoreCopy(Run(c, steps).value, attempts)
    requires attempts + 1 < c.maxAttempts
    ensures Run(c, longer).Some?
    ensures var s := Run(c, longer).value;
            && 0 in s.inbox && s.inbox[0].status.Processed? && s.inbox[0].attempts == attempts + 1
            && s.broker == Broker.EMPTY.(unacked :=
                 map[0 := Broker.Delivery(0, Broker.Decided(Inbox.Retry, attempts + 1))])
  {
    longer := Extend(c, steps, Deliver(0, 0), Run(c, steps).value);
    assert Run(c, longer).value.broker.unacked == map[0 := Broker.Delivery(0, Broker.Delivered)];
    longer := Extend(c, longer, Fail(0, false), Run(c, longer).value);
  }

  /** It goes through a retry tier and waits in the queue again. */
  lemma RetryDelivery(c: Config, steps: seq<Step>, attempts: nat) returns (longer: seq<Step>)
    requires Configured(c) && Run(c, steps).Some? && OneMoreCopy(Run(c, steps).value, attempts)
    requires attempts + 1 < c.maxAttempts
    ensures Run(c, longer).Some? && OneMoreCopy(Run(c, longer).value, attempts + 1)
  {
    longer := FailDelivery(c, steps, attempts);
    var w := Broker.Waiting(Broker.TierFor(c.tiers, attempts + 1).value, 0);
    longer := Extend(c, longer, Republish(0), Run(c, longer).value);
    assert Run(c, longer).value.broker
        == Broker.EMPTY.(waiting := multiset{w}, unacked := map[0 := Broker.Delivery(0, Broker.Copied)]);
    longer := Extend(c, longer, Ack(0), Run(c, longer).value);
    assert Run(c, longer).value.broker == Broker.EMPTY.(waiting := multiset{w});
    longer := Extend(c, longer, TierExpires(w), Run(c, longer).value);
  }

  /** Under every configuration there is a run, of transient failures only, in which a processed
      event ends up failed. */
  lemma ProcessedBecomesFailed(c: Config) returns (steps: seq<Step>, more: seq<Step>)
    requires Configured(c)
    ensures Run(c, steps).Some? && Run(c, steps + more).Some?
    ensures 0 in Run(c, steps).value.inbox && Run(c, steps).value.inbox[0].status.Processed?
    ensures 0 in Run(c, steps + more).value.inbox && Run(c, steps + more).value.inbox[0].status.Failed?
  {
    steps := ReachProcessed(c);
    var n := 1;
    while n + 1 < c.maxAttempts
      invariant 1 <= n < c.maxAttempts
      invariant Run(c, steps).Some? && OneMoreCopy(Run(c, steps).value, n)
    {
      steps := RetryDelivery(c, steps, n);
      n := n + 1;
    }
    more := [Deliver(0, 0), Fail(0, false)];
    var s := Run(c, steps).value;
    var delivered := Next(c, s, Deliver(0, 0));
    assert (steps + [Deliver(0, 0)])[..|steps|] == steps;
    assert Run(c, steps + [Deliver(0, 0)]) == Some(delivered);
    assert (steps + more)[..|steps| + 1] == steps + [Deliver(0, 0)];
    assert Run(c, steps + more) == Some(Next(c, delivered, Fail(0, false)));
  }
}
