/** Invariants of the ledger under every interleaving of checkouts and consumer transactions. */
module LedgerProofs {
  import opened Common
  import opened Transition
  import opened Ledger
  import opened LedgerSteps

  // ---- What one applied effect looks like in a reachable ledger -------------------------------

  const SUCCEED := Effect(Some(AttemptStatus.Succeeded), Some(Status.Succeeded), true)
  const PROCESS := Effect(None, Some(Status.Processing), false)
  const FAIL := Effect(Some(AttemptStatus.Failed), Some(Status.Failed), false)
  const EXPIRE := Effect(Some(AttemptStatus.Expired), None, false)

  /** An order whose payment can still settle has not been paid through another payment. */
  lemma UnsettledMeansUnpaid(db: Db, p: PaymentId)
    requires DbOk(db) && p in db.payments && !PaymentSettled(db.payments[p].status)
    ensures db.orders[db.payments[p].order].status.Pending?
  {
  }

  /** The four effects that are ever written, and the rows they meet. */
  predicate Shape(db: Db, f: Fact, e: Effect) {
    && Joined(db, f)
    && (e == SUCCEED || e == PROCESS || e == FAIL || e == EXPIRE)
    && !PaymentSettled(db.payments[f.payment].status) && !AttemptSettled(db.attempts[f.attempt].status)
    && (e == PROCESS ==> db.payments[f.payment].status.Pending?)
    && (e == SUCCEED ==> f.outcome.Succeeded? && db.orders[f.order].status.Pending?)
  }

  /** The rows after such an effect. */
  function Written(db: Db, f: Fact, e: Effect): Db
    requires Joined(db, f)
  {
    Db(if e.orderPaid then db.orders[f.order := db.orders[f.order].(status := Paid)] else db.orders,
       if e.payment.Some?
       then db.payments[f.payment := db.payments[f.payment].(status := e.payment.value)] else db.payments,
       if e.attempt.Some?
       then db.attempts[f.attempt := db.attempts[f.attempt].(status := e.attempt.value)] else db.attempts)
  }

  /** Only four effects are ever approved: the branches that repair a half-applied aggregate are
      never taken. Each guarded write then matches exactly one row. */
  lemma EffectShapes(db: Db, f: Fact)
    requires DbOk(db) && Joined(db, f) && VerdictOf(db, f).Write?
    ensures var e := VerdictOf(db, f).effect;
            && Shape(db, f, e)
            && (forall stage :: 0 <= stage < 3 ==> Matches(db, f, e, stage))
            && ApplyEffect(db, f, e) == Some(Written(db, f, e))
  {
    VerdictShape(db, f);
    ShapeMatches(db, f, VerdictOf(db, f).effect);
  }

  lemma VerdictShape(db: Db, f: Fact)
    requires DbOk(db) && Joined(db, f) && VerdictOf(db, f).Write?
    ensures Shape(db, f, VerdictOf(db, f).effect)
  {
    var p, a := db.payments[f.payment], db.attempts[f.attempt];
    assert a.status.Succeeded? ==> HasSucceeded(db.attempts, f.payment);
    assert a.status.Failed? ==> p.status.Failed?;
    if !PaymentSettled(p.status) { UnsettledMeansUnpaid(db, f.payment); }
  }

  lemma ShapeMatches(db: Db, f: Fact, e: Effect)
    requires Shape(db, f, e)
    ensures forall stage :: 0 <= stage < 3 ==> Matches(db, f, e, stage)
    ensures ApplyEffect(db, f, e) == Some(Written(db, f, e))
  {
  }

  // ---- Evolution of the rows --------------------------------------------------------------------

  predicate AttemptEvolves(ps: PaymentTable, x: AttemptRow, y: AttemptRow) {
    && x.payment == y.payment && x.provider == y.provider && x.key == y.key
    && (x.session.Some? ==> y.session == x.session)
    && x.payment in ps && AttemptMoves(ps[x.payment].status, x.status, y.status)
  }

  predicate PaymentEvolves(x: PaymentRow, y: PaymentRow) {
    && x.order == y.order && x.provider == y.provider && x.amount == y.amount && x.currency == y.currency
    && PaymentMoves(x.status, y.status)
  }

  predicate OrderEvolves(x: OrderRow, y: OrderRow) {
    && x.amount == y.amount && x.currency == y.currency && x.quantity == y.quantity
    && (x.status == y.status || (x.status.Pending? && y.status.Paid?))
  }

  ghost predicate AttemptsEvolve(ps: PaymentTable, ts: AttemptTable, after: AttemptTable) {
    forall a :: a in ts ==> a in after && AttemptEvolves(ps, ts[a], after[a])
  }

  ghost predicate PaymentsEvolve(ps: PaymentTable, after: PaymentTable) {
    forall p :: p in ps ==> p in after && PaymentEvolves(ps[p], after[p])
  }

  ghost predicate OrdersEvolve(os: OrderTable, after: OrderTable) {
    forall o :: o in os ==> o in after && OrderEvolves(os[o], after[o])
  }

  /** Nothing is deleted, identities and amounts never change, statuses only move forward. */
  ghost predicate Evolves(db: Db, after: Db) {
    && AttemptsEvolve(db.payments, db.attempts, after.attempts)
    && PaymentsEvolve(db.payments, after.payments) && OrdersEvolve(db.orders, after.orders)
  }

  lemma EvolvesReflexive(db: Db)
    requires AttemptKeys(db.payments, db.attempts)
    ensures Evolves(db, db)
  {
  }

  // ---- In-place updates keep keys and indexes ----------------------------------------------------

  lemma PaymentUpdatesKept(os: OrderTable, afterOrders: OrderTable, ps: PaymentTable, after: PaymentTable)
    requires PaymentKeys(os, ps) && OneActivePayment(ps)
    requires OrdersEvolve(os, afterOrders) && PaymentsEvolve(ps, after) && after.Keys == ps.Keys
    ensures PaymentKeys(afterOrders, after) && OneActivePayment(after)
  {
    forall p | p in after ensures PaymentEvolves(ps[p], after[p]) {}
    forall p | p in after ensures OrderEvolves(os[ps[p].order], afterOrders[ps[p].order]) {}
  }

  lemma AttemptUpdatesKept(ps: PaymentTable, afterPayments: PaymentTable, ts: AttemptTable, after: AttemptTable)
    requires AttemptKeys(ps, ts) && OneLiveAttempt(ts) && UniqueKeys(ts)
    requires PaymentsEvolve(ps, afterPayments) && AttemptsEvolve(ps, ts, after) && after.Keys == ts.Keys
    ensures AttemptKeys(afterPayments, after) && OneLiveAttempt(after) && UniqueKeys(after)
  {
    forall a | a in after ensures AttemptEvolves(ps, ts[a], after[a]) {}
  }

  // ---- A commit keeps the ledger consistent --------------------------------------------------------

  lemma WrittenEvolves(db: Db, f: Fact, e: Effect)
    requires AttemptKeys(db.payments, db.attempts) && Shape(db, f, e)
    ensures Evolves(db, Written(db, f, e))
  {
  }

  lemma WrittenOrdersAgree(db: Db, f: Fact, e: Effect, o: OrderId)
    requires OrdersAgree(db.orders, db.payments) && Shape(db, f, e) && o in db.orders
    ensures var after := Written(db, f, e);
            && (after.orders[o].status.Pending? || after.orders[o].status.Paid?)
            && (after.orders[o].status.Paid? <==> HasSettledMoney(after.payments, o))
  {
    var ps, after := db.payments, Written(db, f, e).payments;
    if HasSettledMoney(ps, o) {
      var p :| p in ps && ps[p].order == o && ps[p].status.Succeeded?;
      assert p in after && after[p] == ps[p];
    }
    if HasSettledMoney(after, o) {
      var p :| p in after && after[p].order == o && after[p].status.Succeeded?;
      if p != f.payment { assert p in ps && ps[p] == after[p]; }
    }
    if e == SUCCEED && o == f.order { assert after[f.payment].status.Succeeded?; }
  }

  lemma WrittenPaymentsAgree(db: Db, f: Fact, e: Effect, p: PaymentId)
    requires AttemptKeys(db.payments, db.attempts) && PaymentsAgree(db.payments, db.attempts)
    requires Shape(db, f, e) && p in db.payments
    ensures var after := Written(db, f, e);
            after.payments[p].status.Succeeded? <==> HasSucceeded(after.attempts, p)
  {
    var ts, after := db.attempts, Written(db, f, e).attempts;
    if HasSucceeded(ts, p) {
      var a :| a in ts && ts[a].payment == p && ts[a].status.Succeeded?;
      assert a in after && after[a] == ts[a];
    }
    if HasSucceeded(after, p) {
      var a :| a in after && after[a].payment == p && after[a].status.Succeeded?;
      if a != f.attempt { assert a in ts && ts[a] == after[a]; }
    }
    if e == SUCCEED && p == f.payment { assert after[f.attempt].status.Succeeded?; }
  }

  lemma WrittenAttemptsAgree(db: Db, f: Fact, e: Effect)
    requires SessionsOk(db.attempts) && AttemptsAgree(db.payments, db.attempts) && Shape(db, f, e)
    ensures var after := Written(db, f, e);
            SessionsOk(after.attempts) && AttemptsAgree(after.payments, after.attempts)
  {
  }

  lemma WrittenKeepsIndexes(db: Db, f: Fact, e: Effect)
    requires DbOk(db) && Shape(db, f, e)
    ensures var after := Written(db, f, e);
            && PaymentKeys(after.orders, after.payments) && AttemptKeys(after.payments, after.attempts)
            && OneActivePayment(after.payments) && OneLiveAttempt(after.attempts) && UniqueKeys(after.attempts)
            && AllPriced(after.orders)
  {
    WrittenKeepsPaymentIndexes(db, f, e);
    WrittenKeepsAttemptIndexes(db, f, e);
  }

  lemma WrittenKeepsPaymentIndexes(db: Db, f: Fact, e: Effect)
    requires PaymentKeys(db.orders, db.payments) && AttemptKeys(db.payments, db.attempts)
    requires OneActivePayment(db.payments) && AllPriced(db.orders) && Shape(db, f, e)
    ensures var after := Written(db, f, e);
            PaymentKeys(after.orders, after.payments) && OneActivePayment(after.payments) && AllPriced(after.orders)
  {
    var after := Written(db, f, e);
    WrittenEvolves(db, f, e);
    PaymentUpdatesKept(db.orders, after.orders, db.payments, after.payments);
  }

  lemma WrittenKeepsAttemptIndexes(db: Db, f: Fact, e: Effect)
    requires AttemptKeys(db.payments, db.attempts) && OneLiveAttempt(db.attempts) && UniqueKeys(db.attempts)
    requires Shape(db, f, e)
    ensures var after := Written(db, f, e);
            AttemptKeys(after.payments, after.attempts) && OneLiveAttempt(after.attempts) && UniqueKeys(after.attempts)
  {
    var after := Written(db, f, e);
    WrittenEvolves(db, f, e);
    AttemptUpdatesKept(db.payments, after.payments, db.attempts, after.attempts);
  }

  lemma WrittenKeepsOrders(db: Db, f: Fact, e: Effect)
    requires OrdersAgree(db.orders, db.payments) && Shape(db, f, e)
    ensures OrdersAgree(Written(db, f, e).orders, Written(db, f, e).payments)
  {
    forall o | o in db.orders ensures var after := Written(db, f, e);
      && (after.orders[o].status.Pending? || after.orders[o].status.Paid?)
      && (after.orders[o].status.Paid? <==> HasSettledMoney(after.payments, o))
    {
      WrittenOrdersAgree(db, f, e, o);
    }
  }

  lemma WrittenKeepsPayments(db: Db, f: Fact, e: Effect)
    requires AttemptKeys(db.payments, db.attempts) && PaymentsAgree(db.payments, db.attempts) && Shape(db, f, e)
    ensures PaymentsAgree(Written(db, f, e).payments, Written(db, f, e).attempts)
  {
    forall p | p in db.payments ensures var after := Written(db, f, e);
      after.payments[p].status.Succeeded? <==> HasSucceeded(after.attempts, p)
    {
      WrittenPaymentsAgree(db, f, e, p);
    }
  }

  lemma WrittenKeepsDb(db: Db, f: Fact, e: Effect)
    requires DbOk(db) && Shape(db, f, e)
    ensures DbOk(Written(db, f, e)) && Evolves(db, Written(db, f, e))
  {
    WrittenEvolves(db, f, e);
    WrittenKeepsIndexes(db, f, e);
    WrittenKeepsOrders(db, f, e);
    WrittenKeepsPayments(db, f, e);
    WrittenAttemptsAgree(db, f, e);
  }

  // ---- The other writes -------------------------------------------------------------------------

  lemma AddOrderKeepsDb(db: Db, id: OrderId, row: OrderRow)
    requires DbOk(db) && id !in db.orders && Priced(row) && row.status.Pending?
    ensures var after := db.(orders := db.orders[id := row]); DbOk(after) && Evolves(db, after)
  {
    assert !HasSettledMoney(db.payments, id);
    EvolvesReflexive(db);
  }

  lemma AddPaymentKeepsDb(db: Db, p: PaymentId, o: OrderId)
    requires DbOk(db) && p !in db.payments && o in db.orders && !HasActivePayment(db.payments, o)
    ensures var after := AddPayment(db, p, NewPayment(o, db.orders[o].amount, db.orders[o].currency));
            DbOk(after) && Evolves(db, after) && !HasLiveAttempt(after.attempts, p)
  {
    var row := NewPayment(o, db.orders[o].amount, db.orders[o].currency);
    EvolvesReflexive(db);
    AddPaymentKeepsKeys(db.orders, db.payments, db.attempts, p, row);
    AddPaymentKeepsActive(db.payments, p, row);
    AddPaymentKeepsOrders(db.orders, db.payments, p, row);
    AddPaymentKeepsAttempts(db.payments, db.attempts, p, row);
  }

  lemma AddPaymentKeepsKeys(os: OrderTable, ps: PaymentTable, ts: AttemptTable, p: PaymentId, row: PaymentRow)
    requires PaymentKeys(os, ps) && AttemptKeys(ps, ts) && p !in ps && row.order in os
    requires row == NewPayment(row.order, os[row.order].amount, os[row.order].currency)
    ensures PaymentKeys(os, ps[p := row]) && AttemptKeys(ps[p := row], ts) && !HasLiveAttempt(ts, p)
  {
  }

  lemma AddPaymentKeepsActive(ps: PaymentTable, p: PaymentId, row: PaymentRow)
    requires OneActivePayment(ps) && p !in ps && !HasActivePayment(ps, row.order)
    ensures OneActivePayment(ps[p := row])
  {
  }

  lemma AddPaymentKeepsOrders(os: OrderTable, ps: PaymentTable, p: PaymentId, row: PaymentRow)
    requires OrdersAgree(os, ps) && p !in ps && row.status.Pending?
    ensures OrdersAgree(os, ps[p := row])
  {
    NewPaymentPaysNothing(ps, p, row);
  }

  lemma AddPaymentKeepsAttempts(ps: PaymentTable, ts: AttemptTable, p: PaymentId, row: PaymentRow)
    requires AttemptKeys(ps, ts) && PaymentsAgree(ps, ts) && AttemptsAgree(ps, ts) && p !in ps && row.status.Pending?
    ensures PaymentsAgree(ps[p := row], ts) && AttemptsAgree(ps[p := row], ts)
  {
    assert !HasSucceeded(ts, p);
  }

  lemma NewPaymentPaysNothing(ps: PaymentTable, p: PaymentId, row: PaymentRow)
    requires p !in ps && !row.status.Succeeded?
    ensures forall o :: HasSettledMoney(ps[p := row], o) <==> HasSettledMoney(ps, o)
  {
    forall o ensures HasSettledMoney(ps[p := row], o) <==> HasSettledMoney(ps, o) {
      if y :| y in ps && ps[y].order == o && ps[y].status.Succeeded? { assert y in ps[p := row]; }
    }
  }

  /** Writing a row that has not succeeded over one that had not either. */
  lemma OpenAttemptSettlesNothing(ts: AttemptTable, a: AttemptId, row: AttemptRow)
    requires !row.status.Succeeded? && (a in ts ==> !ts[a].status.Succeeded?)
    ensures forall p :: HasSucceeded(ts[a := row], p) <==> HasSucceeded(ts, p)
  {
    forall p ensures HasSucceeded(ts[a := row], p) <==> HasSucceeded(ts, p) {
      if y :| y in ts && ts[y].payment == p && ts[y].status.Succeeded? { assert y in ts[a := row]; }
    }
  }

  lemma AddAttemptKeepsDb(db: Db, a: AttemptId, q: PaymentId, key: Key)
    requires DbOk(db) && a !in db.attempts && q in db.payments
    requires !KeyUsed(db.attempts, key) && !HasLiveAttempt(db.attempts, q)
    ensures var after := AddAttempt(db, a, NewAttempt(q, key)); DbOk(after) && Evolves(db, after)
  {
    EvolvesReflexive(db);
    AddAttemptKeepsIndexes(db.payments, db.attempts, a, q, key);
    OpenRowKeepsAgreement(db.payments, db.attempts, a, NewAttempt(q, key));
    assert SessionsOk(db.attempts[a := NewAttempt(q, key)]);
  }

  lemma AddAttemptKeepsIndexes(ps: PaymentTable, ts: AttemptTable, a: AttemptId, q: PaymentId, key: Key)
    requires AttemptKeys(ps, ts) && OneLiveAttempt(ts) && UniqueKeys(ts) && a !in ts && q in ps
    requires !KeyUsed(ts, key) && !HasLiveAttempt(ts, q)
    ensures var after := ts[a := NewAttempt(q, key)];
            AttemptKeys(ps, after) && OneLiveAttempt(after) && UniqueKeys(after)
  {
  }

  /** Writing an open attempt over nothing, or over an open one, changes no agreement. */
  lemma OpenRowKeepsAgreement(ps: PaymentTable, ts: AttemptTable, a: AttemptId, row: AttemptRow)
    requires PaymentsAgree(ps, ts) && AttemptsAgree(ps, ts) && Open(row) && (a in ts ==> Open(ts[a]))
    ensures PaymentsAgree(ps, ts[a := row]) && AttemptsAgree(ps, ts[a := row])
  {
    OpenAttemptSettlesNothing(ts, a, row);
  }

  lemma AttachKeepsDb(db: Db, a: AttemptId, session: SessionId)
    requires DbOk(db) && a in db.attempts && db.attempts[a].status.Created?
    ensures var after := AttachSession(db, a, session).0; DbOk(after) && Evolves(db, after)
  {
    AttachEvolves(db, a, session);
    OpenRowKeepsAgreement(db.payments, db.attempts, a, AttachSession(db, a, session).0.attempts[a]);
    AttachKeepsSessions(db, a, session);
  }

  lemma AttachKeepsSessions(db: Db, a: AttemptId, session: SessionId)
    requires SessionsOk(db.attempts) && a in db.attempts && db.attempts[a].status.Created?
    ensures SessionsOk(AttachSession(db, a, session).0.attempts)
  {
  }

  lemma AttachEvolves(db: Db, a: AttemptId, session: SessionId)
    requires AttemptKeys(db.payments, db.attempts) && OneLiveAttempt(db.attempts) && UniqueKeys(db.attempts)
    requires SessionsOk(db.attempts) && a in db.attempts && db.attempts[a].status.Created?
    ensures var after := AttachSession(db, a, session).0;
            && Evolves(db, after)
            && AttemptKeys(after.payments, after.attempts)
            && OneLiveAttempt(after.attempts) && UniqueKeys(after.attempts)
  {
    var after := AttachSession(db, a, session).0;
    EvolvesReflexive(db);
    AttemptUpdatesKept(db.payments, db.payments, db.attempts, after.attempts);
  }
}
