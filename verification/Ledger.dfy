/** Orders, payments and payment attempts, and the statements and transactions that move them
    (the payment and event repositories). */
module Ledger {
  import opened Common
  import opened Transition
  import Orders

  // Identifiers are opaque; only equality is ever used.
  type OrderId = nat
  type PaymentId = nat
  type AttemptId = nat
  type Key = nat
  type SessionId = nat

  const STRIPE: nat := 0

  datatype OrderStatus = Pending | Paid | Cancelled | Expired

  datatype OrderRow = OrderRow(status: OrderStatus, amount: int, currency: nat, quantity: int)

  datatype PaymentRow = PaymentRow(order: OrderId, provider: nat, status: Status, amount: int, currency: nat)

  datatype AttemptRow = AttemptRow(
    payment: PaymentId, provider: nat, status: AttemptStatus, key: Key, session: Option<SessionId>)

  type OrderTable = map<OrderId, OrderRow>
  type PaymentTable = map<PaymentId, PaymentRow>
  type AttemptTable = map<AttemptId, AttemptRow>

  datatype Db = Db(orders: OrderTable, payments: PaymentTable, attempts: AttemptTable)

  // ---- The partial unique indexes ---------------------------------------------------------

  /** Rows of `payments_order_id_active_key`. */
  predicate Active(p: PaymentRow) { !p.status.Failed? && !p.status.Cancelled? }

  /** Rows of `payment_attempts_payment_id_active_key`. */
  predicate Live(a: AttemptRow) { !a.status.Failed? && !a.status.Expired? && !a.status.Cancelled? }

  predicate Open(a: AttemptRow) { a.status.Created? || a.status.Pending? }

  predicate HasActivePayment(ps: PaymentTable, o: OrderId) {
    exists p | p in ps :: ps[p].order == o && Active(ps[p])
  }

  predicate HasLiveAttempt(ts: AttemptTable, p: PaymentId) {
    exists a | a in ts :: ts[a].payment == p && Live(ts[a])
  }

  predicate KeyUsed(ts: AttemptTable, k: Key) { exists a | a in ts :: ts[a].key == k }

  /** The attempt has the key and serves the order. */
  predicate KeyServes(db: Db, a: AttemptId, key: Key, o: OrderId) {
    && a in db.attempts && db.attempts[a].key == key
    && db.attempts[a].payment in db.payments && db.payments[db.attempts[a].payment].order == o
  }

  /** The key belongs to a checkout of another order. */
  ghost predicate KeyElsewhere(db: Db, key: Key, o: OrderId) { KeyUsed(db.attempts, key) && !KeyServed(db, key, o) }

  ghost predicate KeyServed(db: Db, key: Key, o: OrderId) { exists a :: KeyServes(db, a, key, o) }

  /** A payment of the order that has not failed or been cancelled. */
  ghost predicate Pays(db: Db, p: PaymentId, o: OrderId) {
    p in db.payments && db.payments[p].order == o && !db.payments[p].status.Failed? && !db.payments[p].status.Cancelled?
  }

  /** An attempt of the payment that is waiting for the customer, under way, or has paid. */
  ghost predicate Occupies(db: Db, a: AttemptId, p: PaymentId) {
    && a in db.attempts && db.attempts[a].payment == p
    && (db.attempts[a].status.Created? || db.attempts[a].status.Pending? || db.attempts[a].status.Succeeded?)
  }

  /** Such a payment of the order has such an attempt. */
  ghost predicate Busy(db: Db, o: OrderId) { exists p, a :: Pays(db, p, o) && Occupies(db, a, p) }

  // ---- Applying an event -------------------------------------------------------------------

  /** What a stored event reports, fixed once and for all by its payload. */
  datatype Fact =
    | Unreadable
    | Reports(order: OrderId, payment: PaymentId, attempt: AttemptId, session: Option<SessionId>,
              amount: int, currency: nat, outcome: Outcome)

  datatype Effect = Effect(attempt: Option<AttemptStatus>, payment: Option<Status>, orderPaid: bool)

  const NOTHING := Effect(None, None, false)

  datatype Verdict = Write(effect: Effect) | Ignore | ReferenceMismatch | AmountMismatch | StateConflict

  /** decideEffect: provider, amount and session are checked before the matrix is asked. */
  function DecideEffect(f: Fact, p: PaymentRow, a: AttemptRow): Verdict
    requires f.Reports?
  {
    if p.provider != STRIPE then ReferenceMismatch
    else if f.amount != p.amount || f.currency != p.currency then AmountMismatch
    else if a.session.Some? && f.session.Some? && a.session != f.session then ReferenceMismatch
    else
      var t := Decide(f.outcome, p.status, a.status);
      match t.decision
      case Apply => Write(Effect(t.attempt, t.payment, t.orderPaid))
      case NoOp => Ignore
      case Conflict => StateConflict
  }

  /** The join of lockAggregate: it yields a row only when the three belong together. */
  predicate Joined(db: Db, f: Fact) {
    && f.Reports? && f.attempt in db.attempts && f.payment in db.payments && f.order in db.orders
    && db.attempts[f.attempt].payment == f.payment
    && db.attempts[f.attempt].provider == db.payments[f.payment].provider
    && db.payments[f.payment].order == f.order
  }

  function VerdictOf(db: Db, f: Fact): Verdict {
    if !Joined(db, f) then ReferenceMismatch
    else DecideEffect(f, db.payments[f.payment], db.attempts[f.attempt])
  }

  // The three guarded updates, each with the number of rows it matched.

  function TransitionAttempt(db: Db, id: AttemptId, to: AttemptStatus): (Db, nat) {
    if id in db.attempts && !AttemptSettled(db.attempts[id].status)
    then (db.(attempts := db.attempts[id := db.attempts[id].(status := to)]), 1) else (db, 0)
  }

  function TransitionPayment(db: Db, id: PaymentId, to: Status): (Db, nat) {
    if id in db.payments && !PaymentSettled(db.payments[id].status)
    then (db.(payments := db.payments[id := db.payments[id].(status := to)]), 1) else (db, 0)
  }

  function MarkOrderPaid(db: Db, id: OrderId): (Db, nat) {
    if id in db.orders && db.orders[id].status.Pending?
    then (db.(orders := db.orders[id := db.orders[id].(status := Paid)]), 1) else (db, 0)
  }

  /** applyEffect: the writes in order, or nothing when one of them misses its row. */
  function ApplyEffect(db: Db, f: Fact, e: Effect): Option<Db>
    requires f.Reports?
  {
    var (db1, n1) := if e.attempt.Some? then TransitionAttempt(db, f.attempt, e.attempt.value) else (db, 1);
    var (db2, n2) := if e.payment.Some? then TransitionPayment(db1, f.payment, e.payment.value) else (db1, 1);
    var (db3, n3) := if e.orderPaid then MarkOrderPaid(db2, f.order) else (db2, 1);
    if n1 == 1 && n2 == 1 && n3 == 1 then Some(db3) else None
  }

  /** The rows while the writes are executed one by one, up to the first that misses its row. */
  function WrittenSoFar(db: Db, f: Fact, e: Effect): Db
    requires f.Reports?
  {
    var (db1, n1) := if e.attempt.Some? then TransitionAttempt(db, f.attempt, e.attempt.value) else (db, 1);
    if n1 != 1 then db1
    else
      var (db2, n2) := if e.payment.Some? then TransitionPayment(db1, f.payment, e.payment.value) else (db1, 1);
      if n2 == 1 && e.orderPaid then MarkOrderPaid(db2, f.order).0 else db2
  }

  // ---- Opening a checkout ------------------------------------------------------------------

  function NewPayment(o: OrderId, amount: int, currency: nat): PaymentRow {
    PaymentRow(o, STRIPE, Status.Pending, amount, currency)
  }

  function NewAttempt(p: PaymentId, k: Key): AttemptRow {
    AttemptRow(p, STRIPE, AttemptStatus.Created, k, None)
  }

  function AddPayment(db: Db, p: PaymentId, row: PaymentRow): Db { db.(payments := db.payments[p := row]) }

  function AddAttempt(db: Db, a: AttemptId, row: AttemptRow): Db { db.(attempts := db.attempts[a := row]) }

  /** `payment_attempts_provider_session_id_key`: another attempt has the session. */
  predicate SessionTaken(ts: AttemptTable, a: AttemptId, session: SessionId) {
    exists x | x in ts :: x != a && ts[x].session == Some(session)
  }

  /** SaveSession: only an attempt still in the created state takes a session. */
  function AttachSession(db: Db, a: AttemptId, session: SessionId): (Db, nat) {
    if a in db.attempts && db.attempts[a].status.Created?
    then (AddAttempt(db, a, db.attempts[a].(status := AttemptStatus.Pending, session := Some(session))), 1)
    else (db, 0)
  }

  // ---- Invariants of the stored rows ---------------------------------------------------------

  ghost predicate PaymentKeys(os: OrderTable, ps: PaymentTable) {
    forall p :: p in ps ==>
      && ps[p].provider == STRIPE && ps[p].order in os
      && ps[p].amount == os[ps[p].order].amount && ps[p].currency == os[ps[p].order].currency
  }

  ghost predicate AttemptKeys(ps: PaymentTable, ts: AttemptTable) {
    forall a :: a in ts ==> ts[a].payment in ps && ts[a].provider == STRIPE
  }

  ghost predicate OneActivePayment(ps: PaymentTable) {
    forall p, q | p in ps && q in ps :: (ps[p].order == ps[q].order && Active(ps[p]) && Active(ps[q])) ==> p == q
  }

  ghost predicate OneLiveAttempt(ts: AttemptTable) {
    forall a, b | a in ts && b in ts :: (ts[a].payment == ts[b].payment && Live(ts[a]) && Live(ts[b])) ==> a == b
  }

  ghost predicate UniqueKeys(ts: AttemptTable) {
    forall a, b | a in ts && b in ts :: ts[a].key == ts[b].key ==> a == b
  }

  ghost predicate HasSucceeded(ts: AttemptTable, p: PaymentId) {
    exists a :: a in ts && ts[a].payment == p && ts[a].status.Succeeded?
  }

  ghost predicate HasSettledMoney(ps: PaymentTable, o: OrderId) {
    exists p :: p in ps && ps[p].order == o && ps[p].status.Succeeded?
  }

  /** An order is paid exactly when one of its payments succeeded. */
  ghost predicate OrdersAgree(os: OrderTable, ps: PaymentTable) {
    forall o :: o in os ==>
      && (os[o].status.Pending? || os[o].status.Paid?)
      && (os[o].status.Paid? <==> HasSettledMoney(ps, o))
  }

  /** A payment succeeded exactly when one of its attempts did; refunds are not reachable here. */
  ghost predicate PaymentsAgree(ps: PaymentTable, ts: AttemptTable) {
    forall p :: p in ps ==>
      && (ps[p].status.Pending? || ps[p].status.Processing? || ps[p].status.Succeeded? || ps[p].status.Failed?)
      && (ps[p].status.Succeeded? <==> HasSucceeded(ts, p))
  }

  /** A failed attempt took its payment with it. */
  ghost predicate AttemptsAgree(ps: PaymentTable, ts: AttemptTable) {
    forall a :: a in ts ==>
      && !ts[a].status.Cancelled?
      && (ts[a].status.Failed? ==> ts[a].payment in ps && ps[ts[a].payment].status.Failed?)
  }

  /** A session is attached together with leaving the created state. */
  ghost predicate SessionsOk(ts: AttemptTable) {
    forall a :: a in ts && ts[a].session.Some? ==> !ts[a].status.Created?
  }

  /** Every order was priced by the catalog, so its amount splits exactly into its quantity. */
  predicate Priced(o: OrderRow) {
    && Orders.ValidQuantity(o.quantity) && 0 < o.amount <= Orders.MAX_INT64
    && Orders.ProviderUnit(o.amount, o.quantity) * o.quantity == o.amount
  }

  ghost predicate AllPriced(os: OrderTable) { forall o :: o in os ==> Priced(os[o]) }

  ghost predicate DbOk(db: Db) {
    && PaymentKeys(db.orders, db.payments) && AttemptKeys(db.payments, db.attempts)
    && OneActivePayment(db.payments) && OneLiveAttempt(db.attempts) && UniqueKeys(db.attempts)
    && OrdersAgree(db.orders, db.payments) && PaymentsAgree(db.payments, db.attempts)
    && AttemptsAgree(db.payments, db.attempts) && SessionsOk(db.attempts) && AllPriced(db.orders)
  }
}
