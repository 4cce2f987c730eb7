/** The checkout use case: opens, resumes or returns one hosted checkout session per idempotency
    key, asking the provider for exactly the order's amount. */
module Checkout {
  import opened Common
  import opened Transition
  import opened Ledger
  import LedgerProofs
  import LedgerStore
  import Orders

  /** What the provider is asked for. */
  datatype Request = Request(
    order: OrderId, payment: PaymentId, attempt: AttemptId, unitAmount: int, quantity: int, currency: nat, key: Key)

  /** How the provider answers: with a session, or with an error or a session that is not valid. */
  datatype Reply = Opened(session: SessionId) | Unavailable

  datatype Result =
    | Checkout(session: SessionId)
    | OrderNotFound | OrderNotPayable | KeyConflict | InProgress | ProviderUnavailable | NotSaved

  /** HasSession: the response of the provider was already persisted and can still be paid. */
  predicate HasSession(a: AttemptRow) { a.status.Pending? && a.session.Some? }

  /** The request charges the attempt's own payment, in full: unit amount times quantity is what
      the order, and therefore the payment, amounts to. */
  ghost predicate Charges(db: Db, r: Request) {
    && KeyServes(db, r.attempt, r.key, r.order) && r.payment == db.attempts[r.attempt].payment
    && r.order in db.orders && r.quantity == db.orders[r.order].quantity
    && r.unitAmount * r.quantity == db.orders[r.order].amount == db.payments[r.payment].amount
    && r.currency == db.orders[r.order].currency == db.payments[r.payment].currency
  }

  ghost predicate Payable(db: Db, o: OrderId) { o in db.orders && db.orders[o].status.Pending? }

  /** The key already has a session the customer can pay. */
  ghost predicate Answered(db: Db, key: Key, o: OrderId) {
    exists x :: KeyServes(db, x, key, o) && db.attempts[x].status.Pending? && db.attempts[x].session.Some?
  }

  ghost predicate Stored(db: Db, key: Key, o: OrderId, session: SessionId) {
    exists x :: KeyServes(db, x, key, o) && db.attempts[x].session == Some(session)
  }

  /** What the provider is asked for an attempt of an order. */
  function RequestFor(db: Db, o: OrderId, a: AttemptId): Request
    requires o in db.orders && db.orders[o].quantity != 0 && a in db.attempts
  {
    var order, row := db.orders[o], db.attempts[a];
    Request(o, row.payment, a, Orders.ProviderUnit(order.amount, order.quantity), order.quantity,
            order.currency, row.key)
  }

  lemma RequestCharges(db: Db, o: OrderId, a: AttemptId, key: Key)
    requires DbOk(db) && o in db.orders && KeyServes(db, a, key, o)
    ensures db.orders[o].quantity != 0 && Charges(db, RequestFor(db, o, a))
  {
    assert Priced(db.orders[o]);
  }

  /** SaveSession as a function: the rows it leaves, and whether it is accepted. */
  function SessionSaved(db: Db, x: AttemptId, session: SessionId): (Db, bool)
    requires x in db.attempts
  {
    if !db.attempts[x].status.Created? then (db, db.attempts[x].session == Some(session))
    else if SessionTaken(db.attempts, x, session) then (db, false)
    else (AttachSession(db, x, session).0, true)
  }

  /** Whether the session can be that of the attempt: nobody else has it, or, for an attempt that is
      no longer waiting for one, it is its own. */
  predicate Accepts(db: Db, x: AttemptId, session: SessionId) {
    if x in db.attempts && !db.attempts[x].status.Created?
    then db.attempts[x].session == Some(session)
    else forall y | y in db.attempts && y != x :: db.attempts[y].session != Some(session)
  }

  // ---- The whole use case as a relation -------------------------------------------------------------

  /** What the attempt of a request leads to: its persisted session, or one question to the provider
      and what is made of the reply. */
  ghost predicate Replied(
    db: Db, after: Db, x: AttemptId, o: OrderId, reply: Reply, r: Result, asked: Option<Request>) {
    && x in db.attempts && o in db.orders && db.orders[o].quantity != 0
    && if HasSession(db.attempts[x])
       then r == Checkout(db.attempts[x].session.value) && asked == None && after == db
       else asked == Some(RequestFor(db, o, x))
            && match reply
               case Unavailable => r == ProviderUnavailable && after == db
               case Opened(session) =>
                 var (saved, ok) := SessionSaved(db, x, session);
                 after == saved && r == if ok then Checkout(session) else NotSaved
  }

  /** `answer` is what the preparation of the rows answered, and `between` the rows it left. */
  ghost predicate CheckedOut(db: Db, between: Db, after: Db, answer: LedgerStore.Prepared, o: OrderId, key: Key,
                          p: PaymentId, a: AttemptId, reply: Reply, r: Result, asked: Option<Request>) {
    if o !in db.orders then r == OrderNotFound && asked == None && after == db
    else if !db.orders[o].status.Pending? then r == OrderNotPayable && asked == None && after == db
    else
      && LedgerStore.Answers(db, between, answer, o, key, p, a)
      && match answer
         case KeyConflict => r == KeyConflict && asked == None && after == between
         case InProgress => r == InProgress && asked == None && after == between
         case Reused(x) => Replied(between, after, x, o, reply, r, asked)
         case Opened(_, x) => Replied(between, after, x, o, reply, r, asked)
  }

  /** Of the rows that were stored, only attempt `x` may differ; at most payment `p` and attempt `a`
      are new. */
  ghost predicate OnlyTouches(db: Db, after: Db, p: PaymentId, a: AttemptId, x: Option<AttemptId>) {
    && after.orders == db.orders
    && (forall q :: q in db.payments ==> q in after.payments && after.payments[q] == db.payments[q])
    && (forall y :: y in db.attempts ==> y in after.attempts && (x != Some(y) ==> after.attempts[y] == db.attempts[y]))
    && after.payments.Keys <= db.payments.Keys + {p} && after.attempts.Keys <= db.attempts.Keys + {a}
  }

  function Touched(asked: Option<Request>): Option<AttemptId> {
    if asked.Some? then Some(asked.value.attempt) else None
  }

  // ---- What the relation means -------------------------------------------------------------------------

  lemma PreparedTouches(
    db: Db, between: Db, answer: LedgerStore.Prepared, o: OrderId, key: Key, p: PaymentId, a: AttemptId)
    requires AttemptKeys(db.payments, db.attempts) && p !in db.payments && a !in db.attempts
    requires LedgerStore.Answers(db, between, answer, o, key, p, a)
    ensures OnlyTouches(db, between, p, a, None)
    ensures answer.Opened? ==> a in between.attempts && between.attempts[a] == NewAttempt(answer.payment, key)
    ensures !answer.Opened? ==> between == db
  {
  }

  lemma ReplyTouches(db: Db, after: Db, x: AttemptId, o: OrderId, reply: Reply, r: Result, asked: Option<Request>)
    requires Replied(db, after, x, o, reply, r, asked)
    ensures after.orders == db.orders && after.payments == db.payments && after.attempts.Keys == db.attempts.Keys
    ensures forall y | y in db.attempts :: Touched(asked) != Some(y) ==> after.attempts[y] == db.attempts[y]
    ensures after.attempts[x].payment == db.attempts[x].payment && after.attempts[x].key == db.attempts[x].key
    ensures r.Checkout? ==> after.attempts[x].session == Some(r.session)
  {
  }

  /** Nobody else's rows are touched. */
  lemma OutcomeTouches(db: Db, between: Db, after: Db, answer: LedgerStore.Prepared, o: OrderId, key: Key,
                       p: PaymentId, a: AttemptId, reply: Reply, r: Result, asked: Option<Request>)
    requires DbOk(db) && p !in db.payments && a !in db.attempts
    requires CheckedOut(db, between, after, answer, o, key, p, a, reply, r, asked)
    ensures OnlyTouches(db, after, p, a, Touched(asked))
  {
    if o in db.orders && db.orders[o].status.Pending? {
      PreparedTouches(db, between, answer, o, key, p, a);
      if answer.Reused? || answer.Opened? { ReplyTouches(between, after, answer.attempt, o, reply, r, asked); }
    }
  }

  lemma ReplyRows(db: Db, after: Db, x: AttemptId, o: OrderId, reply: Reply, r: Result, asked: Option<Request>)
    requires Replied(db, after, x, o, reply, r, asked)
    ensures after == db
            || (reply.Opened? && db.attempts[x].status.Created? && after == AttachSession(db, x, reply.session).0)
  {
  }

  lemma ReplyKeepsDb(db: Db, after: Db, x: AttemptId, reply: Reply)
    requires DbOk(db) && x in db.attempts
    requires after == db
             || (reply.Opened? && db.attempts[x].status.Created? && after == AttachSession(db, x, reply.session).0)
    ensures DbOk(after) && LedgerProofs.Evolves(db, after)
  {
    if after == db {
      LedgerProofs.EvolvesReflexive(db);
    } else {
      LedgerProofs.AttachKeepsDb(db, x, reply.session);
    }
  }

  /** The ledger stays consistent and only moves forward. */
  lemma OutcomeKeepsDb(db: Db, between: Db, after: Db, answer: LedgerStore.Prepared, o: OrderId, key: Key,
                       p: PaymentId, a: AttemptId, reply: Reply, r: Result, asked: Option<Request>)
    requires DbOk(db) && p !in db.payments && a !in db.attempts
    requires CheckedOut(db, between, after, answer, o, key, p, a, reply, r, asked)
    ensures DbOk(after) && LedgerProofs.Evolves(db, after)
  {
    if o in db.orders && db.orders[o].status.Pending? {
      LedgerStore.AnswersAreSound(db, between, answer, o, key, p, a);
      if answer.Reused? || answer.Opened? {
        ReplyRows(between, after, answer.attempt, o, reply, r, asked);
        ReplyKeepsDb(between, after, answer.attempt, reply);
      }
    }
    OutcomeTouches(db, between, after, answer, o, key, p, a, reply, r, asked);
    if answer.Opened? { NewRowsEvolve(db, after, p, a); } else { LedgerProofs.EvolvesReflexive(db); }
  }

  lemma NewRowsEvolve(db: Db, after: Db, p: PaymentId, a: AttemptId)
    requires AttemptKeys(db.payments, db.attempts) && a !in db.attempts
    requires OnlyTouches(db, after, p, a, None) || OnlyTouches(db, after, p, a, Some(a))
    ensures LedgerProofs.Evolves(db, after)
  {
  }

  /** Each refusal exactly in its case. */
  lemma OutcomeCases(db: Db, between: Db, after: Db, answer: LedgerStore.Prepared, o: OrderId, key: Key,
                     p: PaymentId, a: AttemptId, reply: Reply, r: Result, asked: Option<Request>)
    requires AttemptKeys(db.payments, db.attempts) && UniqueKeys(db.attempts) && p !in db.payments && a !in db.attempts
    requires CheckedOut(db, between, after, answer, o, key, p, a, reply, r, asked)
    ensures r == OrderNotFound <==> o !in db.orders
    ensures r == OrderNotPayable <==> o in db.orders && !db.orders[o].status.Pending?
    ensures r == KeyConflict <==> Payable(db, o) && KeyElsewhere(db, key, o)
    ensures r == InProgress <==> Payable(db, o) && !KeyUsed(db.attempts, key) && Busy(db, o)
    ensures r.OrderNotFound? || r.OrderNotPayable? || r.KeyConflict? || r.InProgress? ==> asked.None? && after == db
  {
    if Payable(db, o) {
      LedgerStore.AnswersIff(db, between, answer, o, key, p, a);
      PreparedTouches(db, between, answer, o, key, p, a);
    }
  }

  /** Every other request is answered from a persisted session, or asked. */
  lemma OutcomeAsks(db: Db, between: Db, after: Db, answer: LedgerStore.Prepared, o: OrderId, key: Key,
                     p: PaymentId, a: AttemptId, reply: Reply, r: Result, asked: Option<Request>)
    requires AttemptKeys(db.payments, db.attempts) && UniqueKeys(db.attempts) && p !in db.payments && a !in db.attempts
    requires CheckedOut(db, between, after, answer, o, key, p, a, reply, r, asked)
    ensures Payable(db, o) && !r.KeyConflict? && !r.InProgress? ==> (asked.None? <==> Answered(db, key, o))
    ensures Payable(db, o) && Answered(db, key, o) ==> r.Checkout? && after == db
  {
    if Payable(db, o) {
      PreparedTouches(db, between, answer, o, key, p, a);
      LedgerStore.AnswersIff(db, between, answer, o, key, p, a);
      if Answered(db, key, o) {
        var y := AnsweredIsServed(db, key, o);
        assert answer.Reused?;
        OneAttemptPerKey(db, answer.attempt, key, o);
      }
    }
  }

  lemma AnsweredIsServed(db: Db, key: Key, o: OrderId) returns (y: AttemptId)
    requires Answered(db, key, o)
    ensures KeyServes(db, y, key, o) && KeyServed(db, key, o)
  {
    y :| KeyServes(db, y, key, o) && HasSession(db.attempts[y]);
  }

  /** A key seen before is answered for its own attempt, a new one for a new attempt. */
  lemma OutcomeAttempt(db: Db, between: Db, after: Db, answer: LedgerStore.Prepared, o: OrderId, key: Key,
                     p: PaymentId, a: AttemptId, reply: Reply, r: Result, asked: Option<Request>)
    requires AttemptKeys(db.payments, db.attempts) && UniqueKeys(db.attempts) && p !in db.payments && a !in db.attempts
    requires CheckedOut(db, between, after, answer, o, key, p, a, reply, r, asked)
    ensures asked.Some? && !KeyUsed(db.attempts, key) ==> asked.value.attempt == a
    ensures asked.Some? && KeyUsed(db.attempts, key) ==> KeyServes(db, asked.value.attempt, key, o)
    ensures KeyUsed(db.attempts, key) ==> after.payments == db.payments && after.attempts.Keys == db.attempts.Keys
  {
    if Payable(db, o) {
      PreparedTouches(db, between, answer, o, key, p, a);
      if answer.Reused? || answer.Opened? { ReplyTouches(between, after, answer.attempt, o, reply, r, asked); }
    }
  }

  lemma OneAttemptPerKey(db: Db, x: AttemptId, key: Key, o: OrderId)
    requires UniqueKeys(db.attempts) && Answered(db, key, o)
    ensures KeyUsed(db.attempts, key)
    ensures x in db.attempts && db.attempts[x].key == key ==> HasSession(db.attempts[x])
  {
    var y :| KeyServes(db, y, key, o) && HasSession(db.attempts[y]);
  }

  lemma ReplyPays(
    db: Db, after: Db, x: AttemptId, o: OrderId, key: Key, reply: Reply, r: Result, asked: Option<Request>)
    requires DbOk(db) && KeyServes(db, x, key, o) && Replied(db, after, x, o, reply, r, asked)
    ensures asked.Some? ==> asked.value.order == o && asked.value.key == key && asked.value.attempt == x
    ensures asked.Some? ==> Charges(after, asked.value)
    ensures r.Checkout? ==> Stored(after, key, o, r.session)
  {
    ReplyTouches(db, after, x, o, reply, r, asked);
    RequestCharges(db, o, x, key);
    assert KeyServes(after, x, key, o);
  }

  lemma ReplyAccepts(db: Db, after: Db, x: AttemptId, o: OrderId, reply: Reply, r: Result, asked: Option<Request>)
    requires Replied(db, after, x, o, reply, r, asked) && asked.Some?
    ensures r.Checkout? <==> reply.Opened? && Accepts(db, x, reply.session)
    ensures r.Checkout? ==> r.session == reply.session
    ensures r.ProviderUnavailable? <==> reply.Unavailable?
  {
  }

  lemma NewAttemptAccepts(db: Db, between: Db, p: PaymentId, a: AttemptId, session: SessionId)
    requires a !in db.attempts && OnlyTouches(db, between, p, a, None)
    requires a in between.attempts && between.attempts[a].status.Created?
    ensures Accepts(between, a, session) <==> Accepts(db, a, session)
  {
    if SessionTaken(db.attempts, a, session) {
      var y :| y in db.attempts && y != a && db.attempts[y].session == Some(session);
      assert y in between.attempts && between.attempts[y] == db.attempts[y];
    }
  }

  /** The provider is asked for exactly the amount, and what is handed out is stored with the
      attempt of the key. */
  lemma OutcomePays(db: Db, between: Db, after: Db, answer: LedgerStore.Prepared, o: OrderId, key: Key,
                    p: PaymentId, a: AttemptId, reply: Reply, r: Result, asked: Option<Request>)
    requires DbOk(db) && p !in db.payments && a !in db.attempts
    requires CheckedOut(db, between, after, answer, o, key, p, a, reply, r, asked)
    ensures asked.Some? ==> asked.value.order == o && asked.value.key == key && Charges(after, asked.value)
    ensures r.Checkout? ==> Stored(after, key, o, r.session)
  {
    if o in db.orders && db.orders[o].status.Pending? && (answer.Reused? || answer.Opened?) {
      LedgerStore.AnswersAreSound(db, between, answer, o, key, p, a);
      PreparedServes(db, between, answer, o, key, p, a);
      ReplyPays(between, after, answer.attempt, o, key, reply, r, asked);
    }
  }

  lemma PreparedServes(
    db: Db, between: Db, answer: LedgerStore.Prepared, o: OrderId, key: Key, p: PaymentId, a: AttemptId)
    requires LedgerStore.Answers(db, between, answer, o, key, p, a) && (answer.Reused? || answer.Opened?)
    ensures KeyServes(between, answer.attempt, key, o)
  {
  }

  /** A session is handed out exactly when it can be that of the attempt. */
  lemma OutcomeAccepts(db: Db, between: Db, after: Db, answer: LedgerStore.Prepared, o: OrderId, key: Key,
                       p: PaymentId, a: AttemptId, reply: Reply, r: Result, asked: Option<Request>)
    requires AttemptKeys(db.payments, db.attempts) && p !in db.payments && a !in db.attempts
    requires CheckedOut(db, between, after, answer, o, key, p, a, reply, r, asked) && asked.Some?
    ensures r.Checkout? <==> reply.Opened? && Accepts(db, asked.value.attempt, reply.session)
    ensures r.Checkout? ==> r.session == reply.session
    ensures r.ProviderUnavailable? <==> reply.Unavailable?
  {
    PreparedTouches(db, between, answer, o, key, p, a);
    ReplyAccepts(between, after, answer.attempt, o, reply, r, asked);
    if answer.Opened? && reply.Opened? { NewAttemptAccepts(db, between, p, a, reply.session); }
  }

  /** The row of the attempt that was asked for: as it was, or new and created, and with the session
      once that is handed out. */
  ghost predicate Holds(db: Db, after: Db, r: Result, asked: Request) {
    var row := if asked.attempt in db.attempts then db.attempts[asked.attempt]
               else AttemptRow(asked.payment, STRIPE, AttemptStatus.Created, asked.key, None);
    && asked.attempt in after.attempts
    && after.attempts[asked.attempt]
       == if r.Checkout? && row.status.Created?
          then row.(status := AttemptStatus.Pending, session := Some(r.session)) else row
  }

  lemma OutcomeRows(db: Db, between: Db, after: Db, answer: LedgerStore.Prepared, o: OrderId, key: Key,
                    p: PaymentId, a: AttemptId, reply: Reply, r: Result, asked: Option<Request>)
    requires AttemptKeys(db.payments, db.attempts) && p !in db.payments && a !in db.attempts
    requires CheckedOut(db, between, after, answer, o, key, p, a, reply, r, asked)
    ensures asked.Some? ==> Holds(db, after, r, asked.value)
    ensures p in after.payments ==>
              o in db.orders && after.payments[p]
              == PaymentRow(o, STRIPE, Status.Pending, db.orders[o].amount, db.orders[o].currency)
  {
    if Payable(db, o) {
      PreparedTouches(db, between, answer, o, key, p, a);
      if answer.Reused? || answer.Opened? {
        ReplyTouches(between, after, answer.attempt, o, reply, r, asked);
        ReplyHolds(between, after, answer.attempt, o, reply, r, asked);
      }
    }
  }

  lemma ReplyHolds(db: Db, after: Db, x: AttemptId, o: OrderId, reply: Reply, r: Result, asked: Option<Request>)
    requires Replied(db, after, x, o, reply, r, asked)
    ensures asked.Some? ==> asked.value.attempt == x && asked.value.payment == db.attempts[x].payment
    ensures asked.Some? ==> asked.value.key == db.attempts[x].key && Holds(db, after, r, asked.value)
  {
  }

  class Service {
    const tables: LedgerStore.Tables

    constructor (tables: LedgerStore.Tables)
      ensures this.tables == tables
    {
      this.tables := tables;
    }

    /** The request for an attempt without a session, and what becomes of the answer. */
    method AskProvider(o: OrderId, attempt: AttemptId, reply: Reply) returns (r: Result, asked: Request)
      requires o in tables.orders && tables.orders[o].quantity != 0 && attempt in tables.attempts
      requires !HasSession(tables.attempts[attempt])
      modifies tables`attempts
      ensures Replied(old(tables.View()), tables.View(), attempt, o, reply, r, Some(asked))
    {
      asked := RequestFor(tables.View(), o, attempt);
      if reply.Unavailable? { return ProviderUnavailable, asked; }
      var ok := tables.SaveSession(attempt, reply.session);
      r := if ok then Checkout(reply.session) else NotSaved;
    }

    /** From the prepared rows to the answer. */
    method Reply(o: OrderId, attempt: AttemptId, reply: Reply) returns (r: Result, asked: Option<Request>)
      requires o in tables.orders && tables.orders[o].quantity != 0 && attempt in tables.attempts
      modifies tables`attempts
      ensures Replied(old(tables.View()), tables.View(), attempt, o, reply, r, asked)
    {
      if HasSession(tables.attempts[attempt]) {
        return Checkout(tables.attempts[attempt].session.value), None;
      }
      var request;
      r, request := AskProvider(o, attempt, reply);
      asked := Some(request);
    }

    /** CreateCheckout, exactly: `p` and `a` are freshly generated identifiers, `reply` is what the
        provider will answer if it is asked. */
    method Respond(o: OrderId, key: Key, p: PaymentId, a: AttemptId, reply: Reply)
      returns (r: Result, asked: Option<Request>, ghost between: Db, answer: LedgerStore.Prepared)
      requires DbOk(tables.View()) && p !in tables.payments && a !in tables.attempts
      modifies tables`payments, tables`attempts
      ensures CheckedOut(old(tables.View()), between, tables.View(), answer, o, key, p, a, reply, r, asked)
    {
      asked, between, answer := None, tables.View(), LedgerStore.InProgress;
      if o !in tables.orders { return OrderNotFound, asked, between, answer; }
      if !tables.orders[o].status.Pending? { return OrderNotPayable, asked, between, answer; }
      assert Priced(tables.orders[o]);
      answer := tables.PrepareCheckout(o, key, p, a);
      between := tables.View();
      match answer {
        case KeyConflict => r := KeyConflict;
        case InProgress => r := InProgress;
        case Reused(x) => r, asked := Reply(o, x, reply);
        case Opened(_, x) => r, asked := Reply(o, x, reply);
      }
    }

    /** CreateCheckout, and what its callers can rely on. */
    method CreateCheckout(o: OrderId, key: Key, p: PaymentId, a: AttemptId, reply: Reply)
      returns (r: Result, asked: Option<Request>)
      requires DbOk(tables.View()) && p !in tables.payments && a !in tables.attempts
      modifies tables`payments, tables`attempts
      ensures DbOk(tables.View()) && LedgerProofs.Evolves(old(tables.View()), tables.View())
      // Nobody else's rows change.
      ensures OnlyTouches(old(tables.View()), tables.View(), p, a, Touched(asked))
      ensures r == OrderNotFound <==> o !in tables.orders
      ensures r == OrderNotPayable <==> o in tables.orders && !tables.orders[o].status.Pending?
      ensures r == KeyConflict <==> Payable(old(tables.View()), o) && KeyElsewhere(old(tables.View()), key, o)
      ensures r == InProgress <==>
                Payable(old(tables.View()), o) && !KeyUsed(old(tables.attempts), key) && Busy(old(tables.View()), o)
      // Refused before the provider is asked: nothing was opened.
      ensures r.OrderNotFound? || r.OrderNotPayable? || r.KeyConflict? || r.InProgress? ==>
                asked.None? && tables.View() == old(tables.View())
      // Any other request is answered from a persisted session, or else asks the provider.
      ensures Payable(old(tables.View()), o) && !r.KeyConflict? && !r.InProgress? ==>
                (asked.None? <==> Answered(old(tables.View()), key, o))
      ensures Payable(old(tables.View()), o) && Answered(old(tables.View()), key, o) ==>
                r.Checkout? && tables.View() == old(tables.View())
      // A key seen before never opens a second payment or attempt; a new key opens one.
      ensures KeyUsed(old(tables.attempts), key) ==>
                tables.payments == old(tables.payments) && tables.attempts.Keys == old(tables.attempts).Keys
      ensures asked.Some? ==>
                if KeyUsed(old(tables.attempts), key) then KeyServes(old(tables.View()), asked.value.attempt, key, o)
                else asked.value.attempt == a
      // The provider is asked at most once, for exactly the amount of the attempt's own payment.
      ensures asked.Some? ==> asked.value.order == o && asked.value.key == key && Charges(tables.View(), asked.value)
      // Its session is handed out exactly when it can be that of the attempt, and is then stored.
      ensures asked.Some? ==>
                (r.Checkout? <==>
                   reply.Opened? && Accepts(old(tables.View()), asked.value.attempt, reply.session))
      ensures asked.Some? && r.Checkout? ==> r.session == reply.session
      ensures r.Checkout? ==> Stored(tables.View(), key, o, r.session)
      // The row it was asked for, and the payment if that is new.
      ensures asked.Some? ==> Holds(old(tables.View()), tables.View(), r, asked.value)
      ensures p in tables.payments ==>
                o in tables.orders && tables.payments[p]
                == PaymentRow(o, STRIPE, Status.Pending, tables.orders[o].amount, tables.orders[o].currency)
      // An unanswered request leaves an attempt the same key can resume.
      ensures asked.Some? ==> (r.ProviderUnavailable? <==> reply.Unavailable?)
    {
      ghost var db := tables.View();
      ghost var between;
      var answer;
      r, asked, between, answer := Respond(o, key, p, a, reply);
      OutcomeTouches(db, between, tables.View(), answer, o, key, p, a, reply, r, asked);
      OutcomeKeepsDb(db, between, tables.View(), answer, o, key, p, a, reply, r, asked);
      OutcomeCases(db, between, tables.View(), answer, o, key, p, a, reply, r, asked);
      OutcomeAsks(db, between, tables.View(), answer, o, key, p, a, reply, r, asked);
      OutcomeAttempt(db, between, tables.View(), answer, o, key, p, a, reply, r, asked);
      OutcomePays(db, between, tables.View(), answer, o, key, p, a, reply, r, asked);
      OutcomeRows(db, between, tables.View(), answer, o, key, p, a, reply, r, asked);
      if asked.Some? { OutcomeAccepts(db, between, tables.View(), answer, o, key, p, a, reply, r, asked); }
    }
  }
}
