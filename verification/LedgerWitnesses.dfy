/** Runs the code allows: an attempt opened under a payment that just failed, an event refused for
    good although its rows appear later, and an applied event refused when it is delivered again. */
module LedgerWitnesses {
  import opened Common
  import opened Transition
  import opened Ledger
  import opened LedgerSteps
  import opened LedgerRefinement
  import opened LedgerTheorems

  // One event reports that the first attempt failed.
  const FACT := Reports(0, 0, 0, None, 100, 0, Outcome.Failed)
  const FACTS: Facts := map[0 := FACT]

  const ORDER := OrderRow(OrderStatus.Pending, 100, 0, 1)
  const PAYMENT := NewPayment(0, 100, 0)
  const ATTEMPT := NewAttempt(0, 0)
  const CHECKED_OUT := Db(map[0 := ORDER], map[0 := PAYMENT], map[0 := ATTEMPT])
  const EMPTY_LOG := Log(map[], map[], map[], false)

  /** A checkout reaches the point where no attempt carries its key. */
  lemma ReachMissing(facts: Facts) returns (steps: seq<Step>)
    ensures Run(facts, steps) ==
      Some(State(Db(map[0 := ORDER], map[], map[]), {}, map[], map[0 := Missing(0, 100, 0, 0)], EMPTY_LOG))
  {
    steps := Extend(facts, [], PlaceOrder(0, 100, 1, 0), INITIAL);
    var s := State(Db(map[0 := ORDER], map[], map[]), {}, map[], map[], EMPTY_LOG);
    assert Run(facts, steps) == Some(s);
    steps := Extend(facts, steps, StartCheckout(0, 0, 0), s);
    s := s.(checkouts := map[0 := Started(0, 100, 0, 0)]);
    assert Run(facts, steps) == Some(s);
    steps := Extend(facts, steps, FindKey(0, None), s);
    assert Next(facts, s, FindKey(0, None)).checkouts == map[0 := Missing(0, 100, 0, 0)];
  }

  /** Its payment and attempt are stored. */
  lemma ReachCheckedOut(facts: Facts) returns (steps: seq<Step>)
    ensures Run(facts, steps) == Some(State(CHECKED_OUT, {}, map[], map[0 := Prepared(0)], EMPTY_LOG))
  {
    steps := ReachMissing(facts);
    var s := Run(facts, steps).value;
    steps := Extend(facts, steps, OpenPayment(0, 0, 0), s);
    var after := Next(facts, s, OpenPayment(0, 0, 0));
    assert after.db == CHECKED_OUT;
    assert after.checkouts == map[0 := Prepared(0)];
  }

  /** A second request with another key reads the still active payment. */
  lemma ReachJoining(facts: Facts) returns (steps: seq<Step>)
    ensures Run(facts, steps) ==
      Some(State(CHECKED_OUT, {}, map[], map[0 := Prepared(0), 1 := Joining(0, 1, 0)], EMPTY_LOG))
  {
    steps := ReachCheckedOut(facts);
    var s := Run(facts, steps).value;
    steps := Extend(facts, steps, StartCheckout(1, 0, 1), s);
    s := s.(checkouts := map[0 := Prepared(0), 1 := Started(0, 100, 0, 1)]);
    assert Run(facts, steps) == Some(s);
    steps := Extend(facts, steps, FindKey(1, None), s);
    assert Next(facts, s, FindKey(1, None)).checkouts == map[0 := Prepared(0), 1 := Missing(0, 100, 0, 1)];
    s := s.(checkouts := map[0 := Prepared(0), 1 := Missing(0, 100, 0, 1)]);
    steps := Extend(facts, steps, JoinPayment(1, 0), s);
    assert Next(facts, s, JoinPayment(1, 0)).checkouts == map[0 := Prepared(0), 1 := Joining(0, 1, 0)];
  }

  lemma ReachFailed() returns (steps: seq<Step>)
    ensures Run(FACTS, steps).Some?
    ensures var s := Run(FACTS, steps).value;
            && s.db == Db(map[0 := ORDER], map[0 := PAYMENT.(status := Status.Failed)],
                          map[0 := ATTEMPT.(status := AttemptStatus.Failed)])
            && 1 in s.checkouts && s.checkouts[1] == Joining(0, 1, 0)
  {
    steps := ReachJoining(FACTS);
    steps := CommitIsRun(FACTS, steps, Run(FACTS, steps).value, 0, 0);
  }

  /** The second request now inserts its attempt under the failed payment: a run of the code in
      which a customer can pay an attempt that no event will ever be able to settle. */
  lemma OpenAttemptUnderFailedPayment() returns (steps: seq<Step>)
    ensures Run(FACTS, steps).Some? && !FailedClosed(Run(FACTS, steps).value.db)
  {
    steps := ReachFailed();
    var failed := Run(FACTS, steps).value;
    steps := Extend(FACTS, steps, OpenAttempt(1, 1), failed);
    assert Next(FACTS, failed, OpenAttempt(1, 1)).db.attempts[1] == NewAttempt(0, 1);
  }

  /** While the checkout transaction has not committed, an event that names its rows is refused as
      a mismatch, which is terminal; as soon as it has, the same event is approved. Such an event
      cannot come from the provider, which is asked only after the commit. */
  lemma EarlyEventIsRefused() returns (steps: seq<Step>, more: seq<Step>)
    ensures Run(FACTS, steps).Some? && FACT.order in Run(FACTS, steps).value.db.orders
    ensures VerdictOf(Run(FACTS, steps).value.db, FACT).ReferenceMismatch?
    ensures Run(FACTS, steps + more).Some? && VerdictOf(Run(FACTS, steps + more).value.db, FACT).Write?
  {
    steps := ReachMissing(FACTS);
    more := [OpenPayment(0, 0, 0)];
    var s := Run(FACTS, steps).value;
    RunOneMore(FACTS, steps, OpenPayment(0, 0, 0));
    assert Next(FACTS, s, OpenPayment(0, 0, 0)).db == CHECKED_OUT;
  }

  // An event that reports a pending payment and names a session.
  const PENDING_FACT := Reports(0, 0, 0, Some(7), 100, 0, Outcome.Pending)
  const PENDING_FACTS: Facts := map[0 := PENDING_FACT]

  lemma ReachApplied() returns (steps: seq<Step>)
    ensures Run(PENDING_FACTS, steps).Some?
    ensures var s := Run(PENDING_FACTS, steps).value;
            && s.db == Db(map[0 := ORDER], map[0 := PAYMENT.(status := Status.Processing)], map[0 := ATTEMPT])
            && s.txs == map[] && s.checkouts == map[0 := Prepared(0)] && 0 in s.log.applied
  {
    steps := ReachCheckedOut(PENDING_FACTS);
    steps := CommitIsRun(PENDING_FACTS, steps, Run(PENDING_FACTS, steps).value, 0, 0);
  }

  /** An event is applied before its attempt has a session, and a session with another name is
      attached later: delivered again, the event is no longer a no-op but a terminal mismatch. */
  lemma AppliedEventIsRefused() returns (steps: seq<Step>, more: seq<Step>)
    ensures Run(PENDING_FACTS, steps).Some? && Run(PENDING_FACTS, steps + more).Some?
    ensures var s := Run(PENDING_FACTS, steps).value;
            0 in s.log.applied && VerdictOf(s.db, PENDING_FACT).Ignore?
    ensures VerdictOf(Run(PENDING_FACTS, steps + more).value.db, PENDING_FACT).ReferenceMismatch?
  {
    steps := ReachApplied();
    more := [SaveSession(0, 8)];
    RunOneMore(PENDING_FACTS, steps, SaveSession(0, 8));
  }
}
