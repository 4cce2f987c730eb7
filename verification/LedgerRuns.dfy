/** The invariant of the small-step ledger: held snapshots are the stored rows, approved writes
    never miss, and every event is applied at most once. */
module LedgerRuns {
  import opened Common
  import opened Transition
  import opened Ledger
  import opened LedgerSteps
  import opened LedgerProofs
  import Orders

  /** What a transaction read of each row it locked is still what is stored. */
  ghost predicate TxOk(facts: Facts, db: Db, tx: Tx) {
    var f := FactOf(facts, tx.event);
    && (tx.attempt.Some? ==>
        f.Reports? && f.attempt in db.attempts && db.attempts[f.attempt] == tx.attempt.value
        && tx.attempt.value.payment == f.payment)
    && (tx.payment.Some? ==>
        tx.attempt.Some? && f.payment in db.payments && db.payments[f.payment] == tx.payment.value
        && tx.payment.value.order == f.order && tx.payment.value.provider == tx.attempt.value.provider)
    && (tx.order.Some? ==>
        tx.payment.Some? && f.order in db.orders && db.orders[f.order] == tx.order.value)
    && (tx.plan.Some? ==> Loaded(tx) && PlanOk(f, tx))
  }

  predicate PlanOk(f: Fact, tx: Tx)
    requires Loaded(tx) && tx.plan.Some?
  {
    f.Reports?
    && var v := DecideEffect(f, tx.payment.value, tx.attempt.value);
       (v.Write? || v.Ignore?) && tx.plan.value == PlanOf(v)
  }

  ghost predicate TxsOk(facts: Facts, db: Db, txs: map<TxId, Tx>) {
    forall t :: t in txs ==> TxOk(facts, db, txs[t])
  }

  /** No two transactions hold the same row. */
  predicate Disjoint(facts: Facts, x: Tx, y: Tx) {
    var f, g := FactOf(facts, x.event), FactOf(facts, y.event);
    && x.event != y.event
    && (x.attempt.Some? && y.attempt.Some? && f.Reports? && g.Reports? ==> f.attempt != g.attempt)
    && (x.payment.Some? && y.payment.Some? && f.Reports? && g.Reports? ==> f.payment != g.payment)
    && (x.order.Some? && y.order.Some? && f.Reports? && g.Reports? ==> f.order != g.order)
  }

  ghost predicate LocksOk(facts: Facts, txs: map<TxId, Tx>) {
    forall t, u :: t in txs && u in txs && t != u ==> Disjoint(facts, txs[t], txs[u])
  }

  ghost predicate CheckoutsOk(db: Db, cs: map<CheckoutId, Checkout>) {
    forall c :: c in cs && (cs[c].Started? || cs[c].Missing?) ==>
      cs[c].order in db.orders && db.orders[cs[c].order].amount == cs[c].amount
      && db.orders[cs[c].order].currency == cs[c].currency
  }

  // ---- History -----------------------------------------------------------------------------------

  /** The event has nothing left to say to its aggregate. */
  predicate Spent(db: Db, f: Fact) {
    && f.Reports? && f.attempt in db.attempts && f.payment in db.payments
    && db.attempts[f.attempt].payment == f.payment
    && Decide(f.outcome, db.payments[f.payment].status, db.attempts[f.attempt].status).decision.NoOp?
  }

  ghost predicate AppliedOk(facts: Facts, db: Db, applied: map<EventId, nat>) {
    forall e :: e in applied ==> applied[e] == 1 && Spent(db, FactOf(facts, e))
  }

  ghost function Closed(ts: AttemptTable, p: PaymentId): set<AttemptId> {
    set a | a in ts && ts[a].payment == p && AttemptSettled(ts[a].status)
  }

  /** How many events a payment can have absorbed so far. */
  ghost function Budget(db: Db, p: PaymentId): nat {
    |Closed(db.attempts, p)| + if p in db.payments && db.payments[p].status.Pending? then 0 else 1
  }

  ghost predicate AbsorbedOk(db: Db, absorbed: map<PaymentId, nat>) {
    forall p :: p in absorbed ==> p in db.payments && absorbed[p] <= Budget(db, p)
  }

  /** The event that paid an order reported success for exactly the order's amount. */
  predicate PaysExactly(o: OrderId, row: OrderRow, f: Fact) {
    f.Reports? && f.order == o && f.outcome.Succeeded? && f.amount == row.amount && f.currency == row.currency
  }

  ghost predicate PayerOk(facts: Facts, os: OrderTable, payer: map<OrderId, EventId>) {
    forall o :: o in os && os[o].status.Paid? ==> o in payer && PaysExactly(o, os[o], FactOf(facts, payer[o]))
  }

  ghost predicate LogOk(facts: Facts, db: Db, l: Log) {
    !l.violated && AppliedOk(facts, db, l.applied) && AbsorbedOk(db, l.absorbed) && PayerOk(facts, db.orders, l.payer)
  }

  ghost predicate Inv(facts: Facts, s: State) {
    && DbOk(s.db) && CheckoutsOk(s.db, s.checkouts)
    && TxsOk(facts, s.db, s.txs) && LocksOk(facts, s.txs) && LogOk(facts, s.db, s.log)
  }

  // ---- Evolution keeps the history true -------------------------------------------------------------

  lemma SpentEvolves(db: Db, after: Db, f: Fact)
    requires Evolves(db, after) && Spent(db, f)
    ensures Spent(after, f)
  {
    var a, p := db.attempts[f.attempt], db.payments[f.payment];
    assert AttemptEvolves(db.payments, a, after.attempts[f.attempt]);
    VerdictStable(f.outcome, p.status, a.status, after.payments[f.payment].status, after.attempts[f.attempt].status);
  }

  lemma BudgetEvolves(db: Db, after: Db, p: PaymentId)
    requires Evolves(db, after) && p in db.payments
    ensures Budget(db, p) <= Budget(after, p)
  {
    forall a | a in Closed(db.attempts, p) ensures a in Closed(after.attempts, p) {
      assert AttemptEvolves(db.payments, db.attempts[a], after.attempts[a]);
    }
    SubsetSize(Closed(db.attempts, p), Closed(after.attempts, p));
  }

  /** Every applied effect uses up budget: it closes an attempt, or starts the processing. */
  lemma BudgetGrows(db: Db, f: Fact, e: Effect)
    requires Shape(db, f, e)
    ensures Budget(db, f.payment) + 1 <= Budget(Written(db, f, e), f.payment)
  {
    if e != PROCESS { ClosingGrows(db.attempts, f.attempt, e.attempt.value); }
  }

  lemma ClosingGrows(ts: AttemptTable, a: AttemptId, to: AttemptStatus)
    requires a in ts && !AttemptSettled(ts[a].status) && AttemptSettled(to)
    ensures |Closed(ts[a := ts[a].(status := to)], ts[a].payment)| == |Closed(ts, ts[a].payment)| + 1
  {
    assert Closed(ts[a := ts[a].(status := to)], ts[a].payment) == Closed(ts, ts[a].payment) + {a};
  }

  lemma LogEvolves(facts: Facts, db: Db, after: Db, l: Log)
    requires Evolves(db, after) && LogOk(facts, db, l)
    ensures AppliedOk(facts, after, l.applied) && AbsorbedOk(after, l.absorbed)
  {
    forall e | e in l.applied ensures Spent(after, FactOf(facts, e)) { SpentEvolves(db, after, FactOf(facts, e)); }
    forall p | p in l.absorbed ensures p in after.payments && l.absorbed[p] <= Budget(after, p) {
      BudgetEvolves(db, after, p);
    }
  }

  // ---- Steps that leave the stored rows alone ---------------------------------------------------------

  predicate Quiet(step: Step) {
    step.StartCheckout? || step.FindKey? || step.JoinPayment? || step.Abandon? || step.Begin?
    || step.LockAttempt? || step.LockPayment? || step.LockOrder? || step.Resolve? || step.WriteNext?
    || step.Rollback? || step.Forget?
  }

  lemma LocksKept(facts: Facts, s: State, step: Step)
    requires Quiet(step) && Enabled(facts, s, step) && LocksOk(facts, s.txs)
    ensures LocksOk(facts, Next(facts, s, step).txs)
  {
    var after := Next(facts, s, step).txs;
    forall t, u | t in after && u in after && t != u ensures Disjoint(facts, after[t], after[u]) {
      if t in s.txs && u in s.txs { assert Disjoint(facts, s.txs[t], s.txs[u]); }
    }
  }

  lemma TxsKept(facts: Facts, s: State, step: Step)
    requires Quiet(step) && Enabled(facts, s, step) && TxsOk(facts, s.db, s.txs)
    ensures TxsOk(facts, s.db, Next(facts, s, step).txs)
  {
    var after := Next(facts, s, step).txs;
    forall t | t in after ensures TxOk(facts, s.db, after[t]) {
      if t in s.txs { assert TxOk(facts, s.db, s.txs[t]); }
    }
  }

  lemma JoinedWhenLoaded(facts: Facts, db: Db, tx: Tx)
    requires TxOk(facts, db, tx) && Loaded(tx)
    ensures var f := FactOf(facts, tx.event);
            Joined(db, f) && VerdictOf(db, f) == DecideEffect(f, tx.payment.value, tx.attempt.value)
  {
  }

  /** `ErrInvariantViolated` cannot happen: under the held locks every approved write matches. */
  lemma WriteMatches(facts: Facts, s: State, t: TxId)
    requires Inv(facts, s) && Enabled(facts, s, WriteNext(t))
    ensures Matches(s.db, FactOf(facts, s.txs[t].event), s.txs[t].plan.value, s.txs[t].stage)
  {
    var f := FactOf(facts, s.txs[t].event);
    assert TxOk(facts, s.db, s.txs[t]);
    JoinedWhenLoaded(facts, s.db, s.txs[t]);
    if VerdictOf(s.db, f).Write? { EffectShapes(s.db, f); }
  }

  lemma QuietKeeps(facts: Facts, s: State, step: Step)
    requires Quiet(step) && Enabled(facts, s, step) && Inv(facts, s)
    ensures Inv(facts, Next(facts, s, step))
  {
    LocksKept(facts, s, step);
    TxsKept(facts, s, step);
    if step.WriteNext? { WriteMatches(facts, s, step.tx); }
  }

  // ---- Steps that add rows, attach a session, or commit ------------------------------------------------

  /** Every stored row is still there, unchanged; new orders are unpaid. */
  ghost predicate Extends(db: Db, after: Db) {
    && (forall a :: a in db.attempts ==> a in after.attempts && after.attempts[a] == db.attempts[a])
    && (forall p :: p in db.payments ==> p in after.payments && after.payments[p] == db.payments[p])
    && (forall o :: o in db.orders ==> o in after.orders && after.orders[o] == db.orders[o])
    && (forall o :: o in after.orders && o !in db.orders ==> after.orders[o].status.Pending?)
  }

  lemma ExtensionKeepsTxs(facts: Facts, db: Db, after: Db, txs: map<TxId, Tx>)
    requires Extends(db, after) && TxsOk(facts, db, txs)
    ensures TxsOk(facts, after, txs)
  {
    forall t | t in txs ensures TxOk(facts, after, txs[t]) { assert TxOk(facts, db, txs[t]); }
  }

  lemma ExtensionKeeps(facts: Facts, s: State, after: Db)
    requires Inv(facts, s) && DbOk(after) && Evolves(s.db, after) && Extends(s.db, after)
    ensures Inv(facts, s.(db := after))
  {
    ExtensionKeepsTxs(facts, s.db, after, s.txs);
    LogEvolves(facts, s.db, after, s.log);
    assert PayerOk(facts, after.orders, s.log.payer);
  }

  lemma PlaceOrderKeeps(facts: Facts, s: State, step: Step)
    requires step.PlaceOrder? && Enabled(facts, s, step) && Inv(facts, s)
    ensures Inv(facts, Next(facts, s, step))
  {
    Orders.ProviderTotalIsExact(step.unitAmount, step.quantity);
    var after := Next(facts, s, step).db;
    AddOrderKeepsDb(s.db, step.id, after.orders[step.id]);
    ExtensionKeeps(facts, s, after);
  }

  lemma PaymentInserted(facts: Facts, s: State, c: CheckoutId, p: PaymentId)
    requires Inv(facts, s) && c in s.checkouts && s.checkouts[c].Missing?
    requires p !in s.db.payments && !HasActivePayment(s.db.payments, s.checkouts[c].order)
    ensures var x := s.checkouts[c];
            var paid := AddPayment(s.db, p, NewPayment(x.order, x.amount, x.currency));
            Inv(facts, s.(db := paid)) && !HasLiveAttempt(paid.attempts, p)
  {
    var x := s.checkouts[c];
    AddPaymentKeepsDb(s.db, p, x.order);
    ExtensionKeeps(facts, s, AddPayment(s.db, p, NewPayment(x.order, x.amount, x.currency)));
  }

  lemma AttemptInserted(facts: Facts, s: State, a: AttemptId, p: PaymentId, key: Key)
    requires Inv(facts, s) && a !in s.db.attempts && p in s.db.payments
    requires !KeyUsed(s.db.attempts, key) && !HasLiveAttempt(s.db.attempts, p)
    ensures Inv(facts, s.(db := AddAttempt(s.db, a, NewAttempt(p, key))))
  {
    AddAttemptKeepsDb(s.db, a, p, key);
    ExtensionKeeps(facts, s, AddAttempt(s.db, a, NewAttempt(p, key)));
  }

  lemma CheckoutMoved(facts: Facts, s: State, cs: map<CheckoutId, Checkout>)
    requires Inv(facts, s) && CheckoutsOk(s.db, cs)
    ensures Inv(facts, s.(checkouts := cs))
  {
  }

  lemma OpenPaymentKeeps(facts: Facts, s: State, step: Step)
    requires step.OpenPayment? && Enabled(facts, s, step) && Inv(facts, s)
    ensures Inv(facts, Next(facts, s, step))
  {
    var OpenPayment(c, p, a) := step;
    var x := s.checkouts[c];
    var after := Next(facts, s, step);
    PaymentInserted(facts, s, c, p);
    var paid := s.(db := AddPayment(s.db, p, NewPayment(x.order, x.amount, x.currency)));
    if !KeyUsed(s.db.attempts, x.key) { AttemptInserted(facts, paid, a, p, x.key); }
    assert Inv(facts, s.(db := after.db));
    CheckoutMoved(facts, s.(db := after.db), after.checkouts);
  }

  lemma OpenAttemptKeeps(facts: Facts, s: State, step: Step)
    requires step.OpenAttempt? && Enabled(facts, s, step) && Inv(facts, s)
    ensures Inv(facts, Next(facts, s, step))
  {
    var x := s.checkouts[step.checkout];
    AttemptInserted(facts, s, step.attempt, x.payment, x.key);
    var after := Next(facts, s, step);
    CheckoutMoved(facts, s.(db := after.db), after.checkouts);
  }

  lemma SaveSessionKeeps(facts: Facts, s: State, step: Step)
    requires step.SaveSession? && Enabled(facts, s, step) && Inv(facts, s)
    ensures Inv(facts, Next(facts, s, step))
  {
    var a := s.checkouts[step.checkout].attempt;
    var after := AttachSession(s.db, a, step.session).0;
    AttachKeepsDb(s.db, a, step.session);
    LogEvolves(facts, s.db, after, s.log);
    SaveSessionKeepsTxs(facts, s, step);
  }

  lemma SaveSessionKeepsTxs(facts: Facts, s: State, step: Step)
    requires step.SaveSession? && Enabled(facts, s, step) && TxsOk(facts, s.db, s.txs)
    ensures TxsOk(facts, AttachSession(s.db, s.checkouts[step.checkout].attempt, step.session).0, s.txs)
  {
    var a := s.checkouts[step.checkout].attempt;
    forall t | t in s.txs ensures TxOk(facts, AttachSession(s.db, a, step.session).0, s.txs[t]) {
      assert TxOk(facts, s.db, s.txs[t]);
      assert !HoldsAttempt(facts, s.txs[t], a);
    }
  }

  /** A commit writes only rows its transaction holds, so every other snapshot stays true. */
  lemma CommitKeepsTxs(facts: Facts, s: State, t: TxId, e: Effect)
    requires TxsOk(facts, s.db, s.txs) && LocksOk(facts, s.txs)
    requires t in s.txs && Loaded(s.txs[t]) && Joined(s.db, FactOf(facts, s.txs[t].event))
    ensures TxsOk(facts, Written(s.db, FactOf(facts, s.txs[t].event), e), s.txs - {t})
  {
    var f := FactOf(facts, s.txs[t].event);
    var after := Written(s.db, f, e);
    forall u | u in s.txs && u != t ensures TxOk(facts, after, s.txs[u]) {
      assert TxOk(facts, s.db, s.txs[u]) && TxOk(facts, s.db, s.txs[t]);
      assert Disjoint(facts, s.txs[u], s.txs[t]);
    }
  }

  /** Right after its commit an event is spent; before, it was not. */
  lemma CommitSpends(db: Db, f: Fact)
    requires Joined(db, f) && VerdictOf(db, f).Write? && Shape(db, f, VerdictOf(db, f).effect)
    ensures !Spent(db, f) && Spent(Written(db, f, VerdictOf(db, f).effect), f)
  {
    AppliedThenNoOp(f.outcome, db.payments[f.payment].status, db.attempts[f.attempt].status);
  }

  lemma CommitKeepsPayer(facts: Facts, db: Db, payer: map<OrderId, EventId>, ev: EventId, e: Effect)
    requires var f := FactOf(facts, ev);
             && PaymentKeys(db.orders, db.payments) && PayerOk(facts, db.orders, payer) && Shape(db, f, e)
             && f.amount == db.payments[f.payment].amount && f.currency == db.payments[f.payment].currency
    ensures var f := FactOf(facts, ev);
            PayerOk(facts, Written(db, f, e).orders, if e.orderPaid then payer[f.order := ev] else payer)
  {
  }

  lemma CommitKeepsApplied(facts: Facts, db: Db, after: Db, l: Log, ev: EventId)
    requires AppliedOk(facts, db, l.applied) && AppliedOk(facts, after, l.applied)
    requires !Spent(db, FactOf(facts, ev)) && Spent(after, FactOf(facts, ev))
    ensures AppliedOk(facts, after, Bump(l.applied, ev))
  {
  }

  lemma CommitKeepsAbsorbed(db: Db, after: Db, absorbed: map<PaymentId, nat>, p: PaymentId)
    requires AbsorbedOk(db, absorbed) && AbsorbedOk(after, absorbed)
    requires p in after.payments && Budget(db, p) + 1 <= Budget(after, p)
    ensures AbsorbedOk(after, Bump(absorbed, p))
  {
  }

  lemma CommitKeepsLog(facts: Facts, db: Db, l: Log, ev: EventId)
    requires DbOk(db) && LogOk(facts, db, l)
    requires var f := FactOf(facts, ev);
             Joined(db, f) && VerdictOf(db, f).Write? && Shape(db, f, VerdictOf(db, f).effect)
    ensures var f := FactOf(facts, ev);
            var e := VerdictOf(db, f).effect;
            LogOk(facts, Written(db, f, e), Logged(l, ev, f, e))
  {
    var f := FactOf(facts, ev);
    var e := VerdictOf(db, f).effect;
    WrittenEvolves(db, f, e);
    LogEvolves(facts, db, Written(db, f, e), l);
    CommitSpends(db, f);
    CommitCounts(facts, db, l, ev, e);
    CommitKeepsPayer(facts, db, l.payer, ev, e);
  }

  /** The counters of the history stay true. */
  lemma CommitCounts(facts: Facts, db: Db, l: Log, ev: EventId, e: Effect)
    requires var f := FactOf(facts, ev);
             && Shape(db, f, e) && !Spent(db, f) && Spent(Written(db, f, e), f)
             && AppliedOk(facts, db, l.applied) && AbsorbedOk(db, l.absorbed)
             && AppliedOk(facts, Written(db, f, e), l.applied) && AbsorbedOk(Written(db, f, e), l.absorbed)
    ensures var f := FactOf(facts, ev);
            && AppliedOk(facts, Written(db, f, e), Bump(l.applied, ev))
            && AbsorbedOk(Written(db, f, e), Bump(l.absorbed, f.payment))
  {
    var f := FactOf(facts, ev);
    CommitKeepsApplied(facts, db, Written(db, f, e), l, ev);
    BudgetGrows(db, f, e);
    CommitKeepsAbsorbed(db, Written(db, f, e), l.absorbed, f.payment);
  }

  /** A commit that writes nothing only closes its event. */
  lemma EmptyCommitKeeps(facts: Facts, s: State, t: TxId)
    requires Inv(facts, s) && t in s.txs
    ensures Inv(facts, s.(txs := s.txs - {t}, processed := s.processed + {s.txs[t].event}))
  {
    var txs := s.txs - {t};
    forall u, v | u in txs && v in txs && u != v ensures Disjoint(facts, txs[u], txs[v]) {
      assert Disjoint(facts, s.txs[u], s.txs[v]);
    }
  }

  lemma CheckoutsKept(db: Db, f: Fact, e: Effect, cs: map<CheckoutId, Checkout>)
    requires CheckoutsOk(db, cs) && Joined(db, f)
    ensures CheckoutsOk(Written(db, f, e), cs)
  {
  }

  /** What a commit does once its effect is known to match. */
  lemma CommitResult(facts: Facts, s: State, t: TxId)
    requires Inv(facts, s) && Enabled(facts, s, Commit(t))
    ensures var f := FactOf(facts, s.txs[t].event);
            var after := Next(facts, s, Commit(t));
            && Joined(s.db, f) && Loaded(s.txs[t])
            && (VerdictOf(s.db, f).Write? ==>
                && Shape(s.db, f, VerdictOf(s.db, f).effect)
                && after.db == Written(s.db, f, VerdictOf(s.db, f).effect)
                && after.log == Logged(s.log, s.txs[t].event, f, VerdictOf(s.db, f).effect))
            && (!VerdictOf(s.db, f).Write? ==> after.db == s.db && after.log == s.log)
  {
    var f := FactOf(facts, s.txs[t].event);
    assert TxOk(facts, s.db, s.txs[t]);
    JoinedWhenLoaded(facts, s.db, s.txs[t]);
    if VerdictOf(s.db, f).Write? { EffectShapes(s.db, f); }
  }

  lemma CommitKeeps(facts: Facts, s: State, step: Step)
    requires step.Commit? && Enabled(facts, s, step) && Inv(facts, s)
    ensures Inv(facts, Next(facts, s, step))
  {
    var t := step.tx;
    var f := FactOf(facts, s.txs[t].event);
    CommitResult(facts, s, t);
    EmptyCommitKeeps(facts, s, t);
    if VerdictOf(s.db, f).Write? {
      var e := VerdictOf(s.db, f).effect;
      assert DbOk(Written(s.db, f, e)) by { WrittenKeepsDb(s.db, f, e); }
      CommitKeepsTxs(facts, s, t, e);
      CheckoutsKept(s.db, f, e, s.checkouts);
      CommitKeepsLog(facts, s.db, s.log, s.txs[t].event);
    }
  }

  lemma StepKeeps(facts: Facts, s: State, step: Step)
    requires Enabled(facts, s, step) && Inv(facts, s)
    ensures Inv(facts, Next(facts, s, step))
  {
    if Quiet(step) { QuietKeeps(facts, s, step); }
    else if step.PlaceOrder? { PlaceOrderKeeps(facts, s, step); }
    else if step.OpenPayment? { OpenPaymentKeeps(facts, s, step); }
    else if step.OpenAttempt? { OpenAttemptKeeps(facts, s, step); }
    else if step.SaveSession? { SaveSessionKeeps(facts, s, step); }
    else { CommitKeeps(facts, s, step); }
  }

  lemma {:induction false} InvHolds(facts: Facts, steps: seq<Step>)
    requires Run(facts, steps).Some?
    ensures Inv(facts, Run(facts, steps).value)
  {
    if steps != [] {
      var init := steps[..|steps| - 1];
      InvHolds(facts, init);
      StepKeeps(facts, Run(facts, init).value, steps[|steps| - 1]);
    }
  }
}
