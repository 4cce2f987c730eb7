/** What the ledger promises over every run of checkouts and consumer transactions. */
module LedgerTheorems {
  import opened Common
  import opened Transition
  import opened Ledger
  import opened LedgerSteps
  import opened LedgerProofs
  import opened LedgerRuns
  import Orders

  // ---- Held rows ---------------------------------------------------------------------------------

  /** The aggregate a consumer decided on is the stored one until its transaction ends, and every
      write the matrix approved matches exactly one row: `ErrInvariantViolated` is unreachable. */
  lemma ApprovedWritesAlwaysMatch(facts: Facts, steps: seq<Step>, t: TxId)
    requires Run(facts, steps).Some? && t in Run(facts, steps).value.txs
    requires Run(facts, steps).value.txs[t].plan.Some?
    ensures var s := Run(facts, steps).value;
            var f := FactOf(facts, s.txs[t].event);
            && !s.log.violated
            && Joined(s.db, f)
            && s.txs[t].attempt == Some(s.db.attempts[f.attempt])
            && s.txs[t].payment == Some(s.db.payments[f.payment])
            && s.txs[t].order == Some(s.db.orders[f.order])
            && ApplyEffect(s.db, f, s.txs[t].plan.value).Some?
  {
    InvHolds(facts, steps);
    var s := Run(facts, steps).value;
    assert TxOk(facts, s.db, s.txs[t]);
    JoinedWhenLoaded(facts, s.db, s.txs[t]);
    var f := FactOf(facts, s.txs[t].event);
    if VerdictOf(s.db, f).Write? { EffectShapes(s.db, f); }
  }

  lemma NoGuardEverMissed(facts: Facts, steps: seq<Step>)
    requires Run(facts, steps).Some?
    ensures !Run(facts, steps).value.log.violated
  {
    InvHolds(facts, steps);
  }

  // ---- Agreement of the three levels -----------------------------------------------------------------

  /** An order is paid exactly when one of its payments succeeded. */
  lemma PaidIffPaymentSucceeded(facts: Facts, steps: seq<Step>, o: OrderId)
    requires Run(facts, steps).Some? && o in Run(facts, steps).value.db.orders
    ensures var db := Run(facts, steps).value.db;
            db.orders[o].status.Paid? <==>
            exists p :: p in db.payments && db.payments[p].order == o && db.payments[p].status.Succeeded?
  {
    InvHolds(facts, steps);
  }

  /** No order is ever charged twice. */
  lemma OneSuccessPerOrder(facts: Facts, steps: seq<Step>, p: PaymentId, q: PaymentId)
    requires Run(facts, steps).Some?
    requires var ps := Run(facts, steps).value.db.payments;
             p in ps && q in ps && ps[p].order == ps[q].order && ps[p].status.Succeeded?
             && (ps[q].status.Succeeded? || ps[q].status.Pending? || ps[q].status.Processing?)
    ensures p == q
  {
    InvHolds(facts, steps);
  }

  /** A succeeded payment has exactly one succeeded attempt and none that could still be paid. */
  lemma SucceededPaymentIsClosed(facts: Facts, steps: seq<Step>, p: PaymentId)
    requires Run(facts, steps).Some?
    requires p in Run(facts, steps).value.db.payments && Run(facts, steps).value.db.payments[p].status.Succeeded?
    ensures var ts := Run(facts, steps).value.db.attempts;
            exists a :: a in ts && ts[a].payment == p && ts[a].status.Succeeded?
              && forall b :: b in ts && ts[b].payment == p && b != a ==> !ts[b].status.Succeeded? && !Open(ts[b])
  {
    InvHolds(facts, steps);
    SuccessClosesOthers(Run(facts, steps).value.db.attempts, p);
  }

  lemma SuccessClosesOthers(ts: AttemptTable, p: PaymentId)
    requires OneLiveAttempt(ts) && HasSucceeded(ts, p)
    ensures exists a :: a in ts && ts[a].payment == p && ts[a].status.Succeeded?
              && forall b :: b in ts && ts[b].payment == p && b != a ==> !ts[b].status.Succeeded? && !Open(ts[b])
  {
    var a :| a in ts && ts[a].payment == p && ts[a].status.Succeeded?;
    assert forall b :: b in ts && ts[b].payment == p && b != a ==> !Live(ts[b]);
  }

  /** The branches that would repair a half-applied aggregate are never taken. */
  lemma RepairBranchesUnreachable(facts: Facts, steps: seq<Step>, a: AttemptId, o: Outcome)
    requires Run(facts, steps).Some? && a in Run(facts, steps).value.db.attempts
    ensures var db := Run(facts, steps).value.db;
            && db.attempts[a].payment in db.payments
            && var t := Decide(o, db.payments[db.attempts[a].payment].status, db.attempts[a].status);
               t.decision.Apply? ==> t.attempt.Some? || t.payment == Some(Status.Processing)
  {
    InvHolds(facts, steps);
    var db := Run(facts, steps).value.db;
    var p := db.attempts[a].payment;
    assert db.attempts[a].status.Succeeded? ==> HasSucceeded(db.attempts, p);
  }

  // ---- Evolution over runs -----------------------------------------------------------------------------

  lemma CommitEvolves(facts: Facts, s: State, t: TxId)
    requires Enabled(facts, s, Commit(t)) && Inv(facts, s)
    ensures Evolves(s.db, Next(facts, s, Commit(t)).db)
  {
    var after := Next(facts, s, Commit(t)).db;
    CommitResult(facts, s, t);
    var f := FactOf(facts, s.txs[t].event);
    EvolvesReflexive(s.db);
    if VerdictOf(s.db, f).Write? { WrittenEvolves(s.db, f, VerdictOf(s.db, f).effect); }
  }

  lemma InsertionEvolves(facts: Facts, s: State, step: Step)
    requires (step.PlaceOrder? || step.OpenAttempt? || step.OpenPayment?) && Enabled(facts, s, step)
    requires AttemptKeys(s.db.payments, s.db.attempts)
    ensures Evolves(s.db, Next(facts, s, step).db)
  {
    assert Extends(s.db, Next(facts, s, step).db);
    ExtensionEvolves(s.db, Next(facts, s, step).db);
  }

  lemma StepEvolves(facts: Facts, s: State, step: Step)
    requires Enabled(facts, s, step) && Inv(facts, s)
    ensures Evolves(s.db, Next(facts, s, step).db)
  {
    if step.PlaceOrder? || step.OpenAttempt? || step.OpenPayment? { InsertionEvolves(facts, s, step); }
    else if step.SaveSession? { AttachKeepsDb(s.db, s.checkouts[step.checkout].attempt, step.session); }
    else if step.Commit? { CommitEvolves(facts, s, step.tx); }
    else { EvolvesReflexive(s.db); }
  }

  lemma ExtensionEvolves(db: Db, after: Db)
    requires AttemptKeys(db.payments, db.attempts) && Extends(db, after)
    ensures Evolves(db, after)
  {
  }

  /** Rows that belong together keep belonging together. */
  lemma JoinedEvolves(db: Db, after: Db, f: Fact)
    requires Evolves(db, after) && Joined(db, f)
    ensures Joined(after, f)
  {
    assert AttemptEvolves(db.payments, db.attempts[f.attempt], after.attempts[f.attempt]);
    assert PaymentEvolves(db.payments[f.payment], after.payments[f.payment]);
  }

  /** `now` may follow `before` as the verdict on one event: errors and no-ops are final, except
      that a session attached in between may expose the event as one of another checkout. */
  predicate Follows(f: Fact, a: AttemptRow, before: Verdict, now: Verdict) {
    match before
    case Write(_) => true
    case AmountMismatch => now.AmountMismatch?
    case ReferenceMismatch => now.ReferenceMismatch?
    case Ignore => now.Ignore? || (now.ReferenceMismatch? && a.session.None? && f.Reports? && f.session.Some?)
    case StateConflict =>
      now.StateConflict? || (now.ReferenceMismatch? && a.session.None? && f.Reports? && f.session.Some?)
  }

  lemma VerdictEvolves(db: Db, after: Db, f: Fact)
    requires Evolves(db, after) && Joined(db, f)
    ensures Joined(after, f) && Follows(f, db.attempts[f.attempt], VerdictOf(db, f), VerdictOf(after, f))
  {
    JoinedEvolves(db, after, f);
    var a, p := db.attempts[f.attempt], db.payments[f.payment];
    assert AttemptEvolves(db.payments, a, after.attempts[f.attempt]);
    assert PaymentEvolves(p, after.payments[f.payment]);
    VerdictStable(f.outcome, p.status, a.status, after.payments[f.payment].status, after.attempts[f.attempt].status);
  }

  /** Verdict stability over runs: whatever else happens to the aggregate, a verdict that wrote
      nothing is never followed by one that writes. Which verdict it is can change in one way only,
      characterised in LedgerVerdicts. */
  lemma {:induction false} VerdictIsFinal(facts: Facts, steps: seq<Step>, more: seq<Step>, f: Fact)
    requires Run(facts, steps).Some? && Run(facts, steps + more).Some?
    requires Joined(Run(facts, steps).value.db, f)
    ensures var db, later := Run(facts, steps).value.db, Run(facts, steps + more).value.db;
            Joined(later, f) && Follows(f, db.attempts[f.attempt], VerdictOf(db, f), VerdictOf(later, f))
            && (db.attempts[f.attempt].session.Some? ==>
                later.attempts[f.attempt].session == db.attempts[f.attempt].session)
  {
    if more == [] {
      assert steps + more == steps;
    } else {
      var longer := steps + more;
      var init := more[..|more| - 1];
      assert longer[..|longer| - 1] == steps + init;
      VerdictIsFinal(facts, steps, init, f);
      InvHolds(facts, steps + init);
      var s := Run(facts, steps + init).value;
      StepEvolves(facts, s, longer[|longer| - 1]);
      var later := Next(facts, s, longer[|longer| - 1]).db;
      VerdictEvolves(s.db, later, f);
      assert AttemptEvolves(s.db.payments, s.db.attempts[f.attempt], later.attempts[f.attempt]);
    }
  }

  // ---- Exactly once ---------------------------------------------------------------------------------------

  /** Every event is applied at most once, although its processed flag may come and go: the matrix
      has nothing left to do for it. */
  lemma AppliedAtMostOnce(facts: Facts, steps: seq<Step>, e: EventId)
    requires Run(facts, steps).Some? && e in Run(facts, steps).value.log.applied
    ensures Run(facts, steps).value.log.applied[e] == 1
    ensures var db := Run(facts, steps).value.db;
            var f := FactOf(facts, e);
            && f.Reports? && f.attempt in db.attempts && f.payment in db.payments
            && Decide(f.outcome, db.payments[f.payment].status, db.attempts[f.attempt].status).decision.NoOp?
            && !VerdictOf(db, f).Write?
  {
    InvHolds(facts, steps);
    var s := Run(facts, steps).value;
    AppliedIsSpent(facts, s.db, s.log.applied, e);
    SpentWritesNothing(s.db, FactOf(facts, e));
  }

  /** Applying an event again, in any later state of any run, writes nothing. */
  lemma RedeliveryIsNoOp(facts: Facts, steps: seq<Step>, t: TxId)
    requires Run(facts, steps).Some? && Enabled(facts, Run(facts, steps).value, Commit(t))
    requires Run(facts, steps).value.txs[t].event in Run(facts, steps).value.log.applied
    ensures var s := Run(facts, steps).value;
            var after := Next(facts, s, Commit(t));
            after.db == s.db && after.log == s.log && s.txs[t].event in after.processed
  {
    InvHolds(facts, steps);
    var s := Run(facts, steps).value;
    var f := FactOf(facts, s.txs[t].event);
    assert !VerdictOf(s.db, f).Write? by {
      AppliedIsSpent(facts, s.db, s.log.applied, s.txs[t].event);
      SpentWritesNothing(s.db, f);
    }
    CommitWithoutWrite(facts, s, t);
  }

  lemma SpentWritesNothing(db: Db, f: Fact)
    requires Spent(db, f)
    ensures !VerdictOf(db, f).Write?
  {
  }

  lemma CommitWithoutWrite(facts: Facts, s: State, t: TxId)
    requires Inv(facts, s) && Enabled(facts, s, Commit(t)) && !VerdictOf(s.db, FactOf(facts, s.txs[t].event)).Write?
    ensures var after := Next(facts, s, Commit(t)); after.db == s.db && after.log == s.log
  {
    CommitResult(facts, s, t);
  }

  lemma AppliedIsSpent(facts: Facts, db: Db, applied: map<EventId, nat>, e: EventId)
    requires AppliedOk(facts, db, applied) && e in applied
    ensures applied[e] == 1 && Spent(db, FactOf(facts, e))
  {
  }

  // ---- Bounded work -----------------------------------------------------------------------------------------

  function AttemptRank(a: AttemptStatus): nat { if a.Created? then 0 else if a.Pending? then 1 else 2 }

  function PaymentRank(p: Status): nat { if p.Pending? then 0 else if p.Processing? then 1 else 2 }

  function OrderRank(o: OrderStatus): nat { if o.Pending? then 0 else 1 }

  function Rank(db: Db, f: Fact): nat
    requires Joined(db, f)
  {
    AttemptRank(db.attempts[f.attempt].status) + PaymentRank(db.payments[f.payment].status)
    + OrderRank(db.orders[f.order].status)
  }

  /** Every step keeps or raises the rank of an aggregate, and a commit that writes raises it. */
  lemma RankNeverFalls(facts: Facts, steps: seq<Step>, step: Step, f: Fact)
    requires Run(facts, steps).Some? && Enabled(facts, Run(facts, steps).value, step)
    requires Joined(Run(facts, steps).value.db, f)
    ensures var s := Run(facts, steps).value;
            var after := Next(facts, s, step);
            && Joined(after.db, f) && Rank(s.db, f) <= Rank(after.db, f)
            && (step.Commit? && f == FactOf(facts, s.txs[step.tx].event) && VerdictOf(s.db, f).Write?
                ==> Rank(s.db, f) < Rank(after.db, f))
  {
    InvHolds(facts, steps);
    var s := Run(facts, steps).value;
    StepEvolves(facts, s, step);
    RankEvolves(s.db, Next(facts, s, step).db, f);
    if step.Commit? && f == FactOf(facts, s.txs[step.tx].event) && VerdictOf(s.db, f).Write? {
      CommitResult(facts, s, step.tx);
      WritingRaisesRank(s.db, f, VerdictOf(s.db, f).effect);
    }
  }

  lemma RankEvolves(db: Db, after: Db, f: Fact)
    requires Evolves(db, after) && Joined(db, f)
    ensures Joined(after, f) && Rank(db, f) <= Rank(after, f)
  {
    JoinedEvolves(db, after, f);
    assert AttemptEvolves(db.payments, db.attempts[f.attempt], after.attempts[f.attempt]);
    assert PaymentEvolves(db.payments[f.payment], after.payments[f.payment]);
    assert OrderEvolves(db.orders[f.order], after.orders[f.order]);
  }

  lemma WritingRaisesRank(db: Db, f: Fact, e: Effect)
    requires Shape(db, f, e)
    ensures Joined(Written(db, f, e), f) && Rank(db, f) < Rank(Written(db, f, e), f)
  {
  }

  ghost function AttemptsOf(ts: AttemptTable, p: PaymentId): set<AttemptId> {
    set a | a in ts && ts[a].payment == p
  }

  /** A payment with `n` attempts absorbs at most `n + 1` applied events, in any run. */
  lemma AbsorbedIsBounded(facts: Facts, steps: seq<Step>, p: PaymentId)
    requires Run(facts, steps).Some? && p in Run(facts, steps).value.log.absorbed
    ensures var s := Run(facts, steps).value;
            p in s.db.payments && s.log.absorbed[p] <= |AttemptsOf(s.db.attempts, p)| + 1
  {
    InvHolds(facts, steps);
    var db := Run(facts, steps).value.db;
    SubsetSize(Closed(db.attempts, p), AttemptsOf(db.attempts, p));
  }

  // ---- Money ---------------------------------------------------------------------------------------------------

  /** The event that paid an order reported success for exactly the amount that was asked from
      the provider: unit amount times quantity, with nothing lost to the division. */
  lemma PaidForExactAmount(facts: Facts, steps: seq<Step>, o: OrderId)
    requires Run(facts, steps).Some?
    requires o in Run(facts, steps).value.db.orders && Run(facts, steps).value.db.orders[o].status.Paid?
    ensures var s := Run(facts, steps).value;
            var row := s.db.orders[o];
            && o in s.log.payer
            && var f := FactOf(facts, s.log.payer[o]);
               && f.Reports? && f.order == o && f.outcome.Succeeded? && f.currency == row.currency
               && row.quantity != 0
               && f.amount == row.amount == Orders.ProviderUnit(row.amount, row.quantity) * row.quantity
  {
    InvHolds(facts, steps);
    var s := Run(facts, steps).value;
    assert Priced(s.db.orders[o]);
  }

  // ---- Failed payments and open attempts --------------------------------------------------------------------------

  /** No attempt stays open under a failed payment. */
  ghost predicate FailedClosed(db: Db) {
    forall a :: a in db.attempts && Open(db.attempts[a]) ==>
      db.attempts[a].payment in db.payments && !db.payments[db.attempts[a].payment].status.Failed?
  }

  lemma CommitKeepsFailedClosed(db: Db, f: Fact, e: Effect)
    requires AttemptKeys(db.payments, db.attempts) && OneLiveAttempt(db.attempts) && Shape(db, f, e) && FailedClosed(db)
    ensures FailedClosed(Written(db, f, e))
  {
  }

  /** A step other than inserting an attempt under an existing payment keeps it. */
  lemma OtherStepsKeepFailedClosed(facts: Facts, s: State, step: Step)
    requires Enabled(facts, s, step) && !step.OpenAttempt? && !step.Commit?
    requires AttemptKeys(s.db.payments, s.db.attempts) && FailedClosed(s.db)
    ensures FailedClosed(Next(facts, s, step).db)
  {
  }

  /** Exactly one step can break that: inserting an attempt under a payment that failed after the
      checkout read it. */
  lemma FailedClosedKeptIff(facts: Facts, steps: seq<Step>, step: Step)
    requires Run(facts, steps).Some? && Enabled(facts, Run(facts, steps).value, step)
    requires FailedClosed(Run(facts, steps).value.db)
    ensures var s := Run(facts, steps).value;
            FailedClosed(Next(facts, s, step).db)
            <==> !(step.OpenAttempt? && s.db.payments[s.checkouts[step.checkout].payment].status.Failed?)
  {
    InvHolds(facts, steps);
    var s := Run(facts, steps).value;
    if step.Commit? {
      CommitResult(facts, s, step.tx);
      var f := FactOf(facts, s.txs[step.tx].event);
      if VerdictOf(s.db, f).Write? { CommitKeepsFailedClosed(s.db, f, VerdictOf(s.db, f).effect); }
    } else if step.OpenAttempt? {
      OpenAttemptBreaksIff(s.db, step.attempt, s.checkouts[step.checkout].payment, s.checkouts[step.checkout].key);
    } else {
      OtherStepsKeepFailedClosed(facts, s, step);
    }
  }

  lemma OpenAttemptBreaksIff(db: Db, a: AttemptId, p: PaymentId, key: Key)
    requires FailedClosed(db) && a !in db.attempts && p in db.payments
    ensures FailedClosed(AddAttempt(db, a, NewAttempt(p, key))) <==> !db.payments[p].status.Failed?
  {
    assert a in AddAttempt(db, a, NewAttempt(p, key)).attempts;
  }

  /** A success reported for an attempt that was opened under a failed payment is a conflict, and
      stays one: the money arrived, but no event will ever settle it. */
  lemma OrphanedSuccessIsConflict(facts: Facts, steps: seq<Step>, more: seq<Step>, f: Fact)
    requires Run(facts, steps).Some? && Run(facts, steps + more).Some?
    requires Joined(Run(facts, steps).value.db, f) && f.outcome.Succeeded?
    requires var db := Run(facts, steps).value.db;
             && db.payments[f.payment].status.Failed?
             && f.amount == db.payments[f.payment].amount && f.currency == db.payments[f.payment].currency
             && (f.session.None? || db.attempts[f.attempt].session == f.session)
    ensures Joined(Run(facts, steps + more).value.db, f)
    ensures VerdictOf(Run(facts, steps + more).value.db, f).StateConflict?
  {
    InvHolds(facts, steps);
    assert VerdictOf(Run(facts, steps).value.db, f).StateConflict?;
    VerdictIsFinal(facts, steps, more, f);
  }
}
