/** Checkouts and consumer transactions over one ledger, in small steps: every statement of a
    transaction is a step of its own, row locks are held to the end, and any number of them
    interleave. Writes stay with their transaction until it commits. */
module LedgerSteps {
  import opened Common
  import opened Transition
  import opened Ledger
  import Orders

  type TxId = nat
  type CheckoutId = nat

  /** A consumer transaction holds the inbox row of its event, then locks the attempt, the
      payment and the order, in this order, keeping what it read of each. `plan` is what the
      decision asked for and `stage` how many of its three writes were executed. */
  datatype Tx = Tx(
    event: EventId,
    attempt: Option<AttemptRow>,
    payment: Option<PaymentRow>,
    order: Option<OrderRow>,
    plan: Option<Effect>,
    stage: nat)

  /** Where one checkout request stands. */
  datatype Checkout =
    | Started(order: OrderId, amount: int, currency: nat, key: Key)
    | Missing(order: OrderId, amount: int, currency: nat, key: Key)  // no attempt carried the key
    | Joining(order: OrderId, key: Key, payment: PaymentId)          // found an active payment
    | Prepared(attempt: AttemptId)

  /** History used only to state properties: how often each event was applied and each payment
      absorbed an event, which event paid an order, and whether a guarded write ever missed. */
  datatype Log = Log(
    applied: map<EventId, nat>,
    absorbed: map<PaymentId, nat>,
    payer: map<OrderId, EventId>,
    violated: bool)

  datatype State = State(
    db: Db, processed: set<EventId>, txs: map<TxId, Tx>, checkouts: map<CheckoutId, Checkout>, log: Log)

  const INITIAL := State(Db(map[], map[], map[]), {}, map[], map[], Log(map[], map[], map[], false))

  datatype Step =
    | PlaceOrder(id: OrderId, unitAmount: int, quantity: int, orderCurrency: nat)
    | StartCheckout(checkout: CheckoutId, order: OrderId, key: Key)
    | FindKey(checkout: CheckoutId, found: Option<AttemptId>)
    | OpenPayment(checkout: CheckoutId, payment: PaymentId, attempt: AttemptId)
    | JoinPayment(checkout: CheckoutId, payment: PaymentId)
    | OpenAttempt(checkout: CheckoutId, attempt: AttemptId)
    | SaveSession(checkout: CheckoutId, session: SessionId)
    | Abandon(checkout: CheckoutId)
    | Begin(tx: TxId, event: EventId)
    | LockAttempt(tx: TxId)
    | LockPayment(tx: TxId)
    | LockOrder(tx: TxId)
    | Resolve(tx: TxId)
    | WriteNext(tx: TxId)
    | Commit(tx: TxId)
    | Rollback(tx: TxId)
    | Forget(event: EventId)

  /** The interpretation of stored events, fixed for the whole run. */
  type Facts = map<EventId, Fact>

  function FactOf(facts: Facts, e: EventId): Fact { if e in facts then facts[e] else Unreadable }

  // ---- Row locks -----------------------------------------------------------------------------

  predicate HoldsEvent(s: State, e: EventId) { exists t | t in s.txs :: s.txs[t].event == e }

  predicate HoldsAttempt(facts: Facts, tx: Tx, a: AttemptId) {
    tx.attempt.Some? && FactOf(facts, tx.event).Reports? && FactOf(facts, tx.event).attempt == a
  }

  predicate HoldsPayment(facts: Facts, tx: Tx, p: PaymentId) {
    tx.payment.Some? && FactOf(facts, tx.event).Reports? && FactOf(facts, tx.event).payment == p
  }

  predicate HoldsOrder(facts: Facts, tx: Tx, o: OrderId) {
    tx.order.Some? && FactOf(facts, tx.event).Reports? && FactOf(facts, tx.event).order == o
  }

  predicate AttemptFree(facts: Facts, s: State, a: AttemptId) {
    forall t | t in s.txs :: !HoldsAttempt(facts, s.txs[t], a)
  }

  predicate PaymentFree(facts: Facts, s: State, p: PaymentId) {
    forall t | t in s.txs :: !HoldsPayment(facts, s.txs[t], p)
  }

  predicate OrderFree(facts: Facts, s: State, o: OrderId) {
    forall t | t in s.txs :: !HoldsOrder(facts, s.txs[t], o)
  }

  // ---- Steps -----------------------------------------------------------------------------------

  /** The attempt carrying a key, if any; `found` must name it. */
  predicate KeyLookup(db: Db, key: Key, found: Option<AttemptId>) {
    match found
    case Some(a) => a in db.attempts && db.attempts[a].key == key
    case None => !KeyUsed(db.attempts, key)
  }

  predicate Loaded(tx: Tx) { tx.attempt.Some? && tx.payment.Some? && tx.order.Some? }

  predicate Enabled(facts: Facts, s: State, step: Step) {
    match step
    case PlaceOrder(id, unit, quantity, _) => id !in s.db.orders && Orders.Price(unit, quantity).Some?
    // The order is read, and found pending, before the checkout transaction starts.
    case StartCheckout(c, o, _) => c !in s.checkouts && o in s.db.orders && s.db.orders[o].status.Pending?
    case FindKey(c, found) =>
      && c in s.checkouts && (s.checkouts[c].Started? || (s.checkouts[c].Joining? && found.Some?))
      && KeyLookup(s.db, s.checkouts[c].key, found)
      // A key that belongs to another order is refused and the request ends.
      && (found.Some? ==> KeyServes(s.db, found.value, s.checkouts[c].key, s.checkouts[c].order))
    case OpenPayment(c, p, a) =>
      && c in s.checkouts && s.checkouts[c].Missing?
      && p !in s.db.payments && !HasActivePayment(s.db.payments, s.checkouts[c].order)
      // Another request may have taken the key meanwhile: then `a` is its attempt, for the same
      // order. For another order the transaction rolls back (`Abandon`).
      && if KeyUsed(s.db.attempts, s.checkouts[c].key)
         then KeyServes(s.db, a, s.checkouts[c].key, s.checkouts[c].order)
         else a !in s.db.attempts
    case JoinPayment(c, p) =>
      && c in s.checkouts && s.checkouts[c].Missing?
      && p in s.db.payments && s.db.payments[p].order == s.checkouts[c].order && Active(s.db.payments[p])
    // The payment was read without a lock: by now it may have failed.
    case OpenAttempt(c, a) =>
      && c in s.checkouts && s.checkouts[c].Joining? && a !in s.db.attempts
      && s.checkouts[c].payment in s.db.payments
      && !KeyUsed(s.db.attempts, s.checkouts[c].key) && !HasLiveAttempt(s.db.attempts, s.checkouts[c].payment)
    case SaveSession(c, session) =>
      && c in s.checkouts && s.checkouts[c].Prepared?
      && s.checkouts[c].attempt in s.db.attempts && s.db.attempts[s.checkouts[c].attempt].status.Created?
      && AttemptFree(facts, s, s.checkouts[c].attempt)
      && (forall x | x in s.db.attempts :: s.db.attempts[x].session != Some(session))
    case Abandon(c) => c in s.checkouts
    case Begin(t, e) => t !in s.txs && e !in s.processed && !HoldsEvent(s, e)
    case LockAttempt(t) =>
      t in s.txs && s.txs[t].attempt.None?
      && var f := FactOf(facts, s.txs[t].event);
         f.Reports? && f.attempt in s.db.attempts && AttemptFree(facts, s, f.attempt)
         && s.db.attempts[f.attempt].payment == f.payment
    case LockPayment(t) =>
      t in s.txs && s.txs[t].attempt.Some? && s.txs[t].payment.None?
      && var f := FactOf(facts, s.txs[t].event);
         f.Reports? && f.payment in s.db.payments && PaymentFree(facts, s, f.payment)
         && s.db.payments[f.payment].order == f.order
         && s.db.payments[f.payment].provider == s.txs[t].attempt.value.provider
    case LockOrder(t) =>
      t in s.txs && s.txs[t].attempt.Some? && s.txs[t].payment.Some? && s.txs[t].order.None?
      && var f := FactOf(facts, s.txs[t].event);
         f.Reports? && f.order in s.db.orders && OrderFree(facts, s, f.order)
    // Any verdict other than a write or a no-op aborts the transaction (`Rollback`).
    case Resolve(t) =>
      t in s.txs && Loaded(s.txs[t]) && s.txs[t].plan.None?
      && var f := FactOf(facts, s.txs[t].event);
         f.Reports?
         && var v := DecideEffect(f, s.txs[t].payment.value, s.txs[t].attempt.value);
            v.Write? || v.Ignore?
    case WriteNext(t) => t in s.txs && s.txs[t].plan.Some? && s.txs[t].stage < 3
    case Commit(t) => t in s.txs && s.txs[t].plan.Some? && s.txs[t].stage == 3
    case Rollback(t) => t in s.txs
    // A failure recorded late, or a replay, takes the processed flag away again.
    case Forget(e) => e in s.processed && !HoldsEvent(s, e)
  }

  /** Whether the guarded statement of the given stage finds its row. */
  predicate Matches(db: Db, f: Fact, plan: Effect, stage: nat) {
    f.Reports? &&
    if stage == 0 then plan.attempt.Some? ==> TransitionAttempt(db, f.attempt, plan.attempt.value).1 == 1
    else if stage == 1 then plan.payment.Some? ==> TransitionPayment(db, f.payment, plan.payment.value).1 == 1
    else plan.orderPaid ==> MarkOrderPaid(db, f.order).1 == 1
  }

  /** What a commit makes of the stored rows; an effect that matches nothing changes nothing. */
  function Committed(db: Db, f: Fact, plan: Effect): Db {
    if f.Reports? && ApplyEffect(db, f, plan).Some? then ApplyEffect(db, f, plan).value else db
  }

  function Bump(m: map<nat, nat>, k: nat): map<nat, nat> { m[k := (if k in m then m[k] else 0) + 1] }

  function Logged(l: Log, e: EventId, f: Fact, plan: Effect): Log {
    if plan == NOTHING || !f.Reports? then l
    else l.(applied := Bump(l.applied, e), absorbed := Bump(l.absorbed, f.payment),
            payer := if plan.orderPaid then l.payer[f.order := e] else l.payer)
  }

  function PlanOf(v: Verdict): Effect { if v.Write? then v.effect else NOTHING }

  function WithCheckout(s: State, c: CheckoutId, x: Checkout): State { s.(checkouts := s.checkouts[c := x]) }

  function WithTx(s: State, t: TxId, x: Tx): State { s.(txs := s.txs[t := x]) }

  function Next(facts: Facts, s: State, step: Step): State
    requires Enabled(facts, s, step)
  {
    match step
    case PlaceOrder(id, unit, quantity, currency) =>
      s.(db := s.db.(orders := s.db.orders[id :=
        OrderRow(OrderStatus.Pending, Orders.Price(unit, quantity).value, currency, quantity)]))
    case StartCheckout(c, o, key) =>
      WithCheckout(s, c, Started(o, s.db.orders[o].amount, s.db.orders[o].currency, key))
    case FindKey(c, found) =>
      WithCheckout(s, c,
        if found.Some? then Prepared(found.value)
        else Missing(s.checkouts[c].order, s.checkouts[c].amount, s.checkouts[c].currency, s.checkouts[c].key))
    case OpenPayment(c, p, a) => OpenedPayment(s, c, p, a)
    case JoinPayment(c, p) => WithCheckout(s, c, Joining(s.checkouts[c].order, s.checkouts[c].key, p))
    case OpenAttempt(c, a) =>
      WithCheckout(s, c, Prepared(a))
      .(db := AddAttempt(s.db, a, NewAttempt(s.checkouts[c].payment, s.checkouts[c].key)))
    case SaveSession(c, session) => s.(db := AttachSession(s.db, s.checkouts[c].attempt, session).0)
    case Abandon(c) => s.(checkouts := s.checkouts - {c})
    case Begin(t, e) => WithTx(s, t, Tx(e, None, None, None, None, 0))
    case LockAttempt(t) =>
      WithTx(s, t, s.txs[t].(attempt := Some(s.db.attempts[FactOf(facts, s.txs[t].event).attempt])))
    case LockPayment(t) =>
      WithTx(s, t, s.txs[t].(payment := Some(s.db.payments[FactOf(facts, s.txs[t].event).payment])))
    case LockOrder(t) =>
      WithTx(s, t, s.txs[t].(order := Some(s.db.orders[FactOf(facts, s.txs[t].event).order])))
    case Resolve(t) =>
      WithTx(s, t, s.txs[t].(plan := Some(PlanOf(
        DecideEffect(FactOf(facts, s.txs[t].event), s.txs[t].payment.value, s.txs[t].attempt.value)))))
    case WriteNext(t) =>
      WithTx(s, t, s.txs[t].(stage := s.txs[t].stage + 1))
      .(log := s.log.(violated := s.log.violated
          || !Matches(s.db, FactOf(facts, s.txs[t].event), s.txs[t].plan.value, s.txs[t].stage)))
    case Commit(t) =>
      var e, plan := s.txs[t].event, s.txs[t].plan.value;
      State(Committed(s.db, FactOf(facts, e), plan), s.processed + {e}, s.txs - {t}, s.checkouts,
            Logged(s.log, e, FactOf(facts, e), plan))
    case Rollback(t) => s.(txs := s.txs - {t})
    case Forget(e) => s.(processed := s.processed - {e})
  }

  /** Payment and first attempt are inserted in one transaction. When another request took the
      key meanwhile, only the payment is, and that request's attempt is the answer. */
  function OpenedPayment(s: State, c: CheckoutId, p: PaymentId, a: AttemptId): State
    requires c in s.checkouts && s.checkouts[c].Missing?
  {
    var x := s.checkouts[c];
    var db := AddPayment(s.db, p, NewPayment(x.order, x.amount, x.currency));
    WithCheckout(s, c, Prepared(a))
    .(db := if KeyUsed(s.db.attempts, x.key) then db else AddAttempt(db, a, NewAttempt(p, x.key)))
  }

  function Run(facts: Facts, steps: seq<Step>): Option<State> {
    if steps == [] then Some(INITIAL)
    else
      var before := Run(facts, steps[..|steps| - 1]);
      if before.Some? && Enabled(facts, before.value, steps[|steps| - 1])
      then Some(Next(facts, before.value, steps[|steps| - 1])) else None
  }
}
