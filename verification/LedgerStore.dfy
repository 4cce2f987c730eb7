/** The payment and event repositories: tables updated in place, one transaction per method. */
module LedgerStore {
  import opened Common
  import opened Transition
  import opened Ledger
  import Inbox
  import LedgerSteps
  import LedgerProofs
  import LedgerRuns
  import LedgerTheorems

  datatype Prepared =
    | Reused(attempt: AttemptId)
    | Opened(payment: PaymentId, attempt: AttemptId)
    | KeyConflict
    | InProgress

  datatype Cause = NotFound | Unreadable | ReferenceMismatch | AmountMismatch | StateConflict | InvariantViolated

  datatype Processed = AlreadyProcessed | Done(applied: bool) | Rejected(cause: Cause)

  /** The error a verdict that writes nothing turns into; `None` when it is no error. */
  function CauseOf(f: Fact, v: Verdict): Option<Cause> {
    if f.Unreadable? then Some(Cause.Unreadable)
    else match v
      case ReferenceMismatch => Some(Cause.ReferenceMismatch)
      case AmountMismatch => Some(Cause.AmountMismatch)
      case StateConflict => Some(Cause.StateConflict)
      case _ => None
  }

  /** What a checkout may answer and make of the stored rows. */
  ghost predicate Answers(db: Db, after: Db, r: Prepared, o: OrderId, key: Key, p: PaymentId, a: AttemptId) {
    match r
    case Reused(x) => after == db && KeyServes(db, x, key, o)
    case KeyConflict => after == db && KeyElsewhere(db, key, o)
    case InProgress => after == db && !KeyUsed(db.attempts, key) && Busy(db, o)
    case Opened(q, x) => x == a && !KeyUsed(db.attempts, key) && !Busy(db, o) && OpenedUnder(db, after, q, o, key, p, a)
  }

  /** The attempt is new, and its payment is the order's active one, or new when there is none. */
  ghost predicate OpenedUnder(db: Db, after: Db, q: PaymentId, o: OrderId, key: Key, p: PaymentId, a: AttemptId) {
    var attempts := db.attempts[a := AttemptRow(q, STRIPE, AttemptStatus.Created, key, None)];
    if exists x :: Pays(db, x, o)
    then Pays(db, q, o) && after == db.(attempts := attempts)
    else q == p && o in db.orders
         && after == db.(attempts := attempts,
                         payments := db.payments[p := PaymentRow(o, STRIPE, Status.Pending, db.orders[o].amount,
                                                                 db.orders[o].currency)])
  }

  /** Each answer is given exactly in its case. */
  lemma AnswersIff(db: Db, after: Db, r: Prepared, o: OrderId, key: Key, p: PaymentId, a: AttemptId)
    requires Answers(db, after, r, o, key, p, a)
    ensures r.Reused? <==> KeyServed(db, key, o)
    ensures r.KeyConflict? <==> KeyElsewhere(db, key, o)
    ensures r.InProgress? <==> !KeyUsed(db.attempts, key) && Busy(db, o)
    ensures r.Opened? <==> !KeyUsed(db.attempts, key) && !Busy(db, o)
  {
    if x :| KeyServes(db, x, key, o) { assert KeyUsed(db.attempts, key); }
  }

  /** No answer breaks the ledger, or opens an attempt under a failed payment. */
  lemma AnswersAreSound(db: Db, after: Db, r: Prepared, o: OrderId, key: Key, p: PaymentId, a: AttemptId)
    requires DbOk(db) && Answers(db, after, r, o, key, p, a) && p !in db.payments && a !in db.attempts
    ensures DbOk(after)
    ensures LedgerTheorems.FailedClosed(db) ==> LedgerTheorems.FailedClosed(after)
  {
    if r.Opened? {
      ActiveIff(db, o);
      if exists x :: Pays(db, x, o) {
        JoinedKeepsDb(db, r.payment, o, key, a);
      } else {
        OpenedKeepsDb(db, o, key, p, a);
      }
      if LedgerTheorems.FailedClosed(db) { OpenedKeepsFailedClosed(db, after, r.payment, o, key, p, a); }
    }
  }

  lemma JoinedKeepsDb(db: Db, q: PaymentId, o: OrderId, key: Key, a: AttemptId)
    requires DbOk(db) && a !in db.attempts && !KeyUsed(db.attempts, key) && !Busy(db, o)
    requires Pays(db, q, o)
    ensures DbOk(AddAttempt(db, a, NewAttempt(q, key)))
  {
    BusyIff(db, o, q);
    LedgerProofs.AddAttemptKeepsDb(db, a, q, key);
  }

  lemma OpenedKeepsDb(db: Db, o: OrderId, key: Key, p: PaymentId, a: AttemptId)
    requires DbOk(db) && a !in db.attempts && !KeyUsed(db.attempts, key)
    requires p !in db.payments && o in db.orders && !HasActivePayment(db.payments, o)
    ensures var paid := AddPayment(db, p, NewPayment(o, db.orders[o].amount, db.orders[o].currency));
            DbOk(AddAttempt(paid, a, NewAttempt(p, key)))
  {
    LedgerProofs.AddPaymentKeepsDb(db, p, o);
    var paid := AddPayment(db, p, NewPayment(o, db.orders[o].amount, db.orders[o].currency));
    LedgerProofs.AddAttemptKeepsDb(paid, a, p, key);
  }

  lemma OpenedKeepsFailedClosed(db: Db, after: Db, q: PaymentId, o: OrderId, key: Key, p: PaymentId, a: AttemptId)
    requires AttemptKeys(db.payments, db.attempts) && OpenedUnder(db, after, q, o, key, p, a)
    requires p !in db.payments && a !in db.attempts && LedgerTheorems.FailedClosed(db)
    ensures LedgerTheorems.FailedClosed(after)
  {
  }

  lemma KeyIsUnique(db: Db, x: AttemptId, key: Key, o: OrderId)
    requires UniqueKeys(db.attempts) && AttemptKeys(db.payments, db.attempts)
    requires x in db.attempts && db.attempts[x].key == key
    ensures db.payments[db.attempts[x].payment].order == o <==> KeyServes(db, x, key, o)
    ensures db.payments[db.attempts[x].payment].order != o <==> KeyElsewhere(db, key, o)
  {
    if y :| KeyServes(db, y, key, o) { assert x == y; }
  }

  lemma ActiveIff(db: Db, o: OrderId)
    ensures HasActivePayment(db.payments, o) <==> exists p :: Pays(db, p, o)
  {
    if p :| p in db.payments && db.payments[p].order == o && Active(db.payments[p]) { assert Pays(db, p, o); }
    if p :| Pays(db, p, o) { assert db.payments[p].order == o && Active(db.payments[p]); }
  }

  lemma LiveIff(db: Db, p: PaymentId)
    ensures HasLiveAttempt(db.attempts, p) <==> exists a :: Occupies(db, a, p)
  {
    if a :| a in db.attempts && db.attempts[a].payment == p && Live(db.attempts[a]) { assert Occupies(db, a, p); }
    if a :| Occupies(db, a, p) { assert db.attempts[a].payment == p && Live(db.attempts[a]); }
  }

  lemma NotBusyIsFree(db: Db, o: OrderId, q: PaymentId)
    requires Pays(db, q, o) && !Busy(db, o)
    ensures Active(db.payments[q]) && !HasLiveAttempt(db.attempts, q)
  {
    LiveIff(db, q);
  }

  /** With one active payment per order, it alone decides whether the order is busy. */
  lemma BusyIff(db: Db, o: OrderId, active: PaymentId)
    requires OneActivePayment(db.payments)
    ensures Busy(db, o) ==> exists p :: Pays(db, p, o)
    ensures Pays(db, active, o) ==> (Busy(db, o) <==> HasLiveAttempt(db.attempts, active))
  {
    LiveIff(db, active);
    if p, a :| Pays(db, p, o) && Occupies(db, a, p) {
      if Pays(db, active, o) { assert p == active; }
    }
  }

  // ---- What a processing transaction answers, from the rows and the event ---------------------------

  /** The three rows the event names exist and belong together. */
  ghost predicate Belongs(db: Db, f: Fact) {
    && f.Reports? && f.attempt in db.attempts && f.payment in db.payments && f.order in db.orders
    && db.attempts[f.attempt].payment == f.payment && db.payments[f.payment].order == f.order
    && db.attempts[f.attempt].provider == db.payments[f.payment].provider
  }

  ghost predicate SameMoney(db: Db, f: Fact)
    requires Belongs(db, f)
  {
    f.amount == db.payments[f.payment].amount && f.currency == db.payments[f.payment].currency
  }

  /** The event names a session and the attempt has another one. */
  ghost predicate OtherSession(db: Db, f: Fact)
    requires Belongs(db, f)
  {
    f.session.Some? && db.attempts[f.attempt].session.Some? && f.session.value != db.attempts[f.attempt].session.value
  }

  /** The event is about these rows: its own provider's, for their amount, and for their session. */
  ghost predicate About(db: Db, f: Fact) {
    Belongs(db, f) && db.payments[f.payment].provider == STRIPE && SameMoney(db, f) && !OtherSession(db, f)
  }

  /** The event finds what it reports still to be done. */
  ghost predicate Due(db: Db, f: Fact) {
    About(db, f) && Lands(f.outcome, db.payments[f.payment].status, db.attempts[f.attempt].status)
  }

  /** The rows after an event that had something to do. */
  ghost predicate Landed(db: Db, after: Db, f: Fact)
    requires Belongs(db, f)
  {
    var (p, a) := Landing(f.outcome, db.payments[f.payment].status, db.attempts[f.attempt].status);
    && after.payments == db.payments[f.payment := db.payments[f.payment].(status := p)]
    && after.attempts == db.attempts[f.attempt := db.attempts[f.attempt].(status := a)]
    && after.orders
       == if f.outcome.Succeeded? then db.orders[f.order := db.orders[f.order].(status := Paid)] else db.orders
  }

  class Tables {
    var orders: OrderTable
    var payments: PaymentTable
    var attempts: AttemptTable
    var inbox: map<EventId, Inbox.Row>

    function View(): Db
      reads this
    {
      Db(orders, payments, attempts)
    }

    constructor ()
      ensures View() == Db(map[], map[], map[]) && inbox == map[]
    {
      orders, payments, attempts, inbox := map[], map[], map[], map[];
    }

    method FindAttemptByKey(key: Key) returns (found: Option<AttemptId>)
      ensures LedgerSteps.KeyLookup(View(), key, found)
    {
      if a :| a in attempts && attempts[a].key == key {
        found := Some(a);
      } else {
        found := None;
      }
    }

    /** Inserts a payment unless the order already has an active one, which is then read back. */
    method CreateOrGetActivePayment(p: PaymentId, row: PaymentRow) returns (active: PaymentId)
      requires p !in payments && row.status.Pending?
      modifies this`payments
      ensures !(exists q :: Pays(old(View()), q, row.order)) ==> active == p && payments == old(payments)[p := row]
      ensures (exists q :: Pays(old(View()), q, row.order)) ==>
                payments == old(payments) && Pays(old(View()), active, row.order)
    {
      ActiveIff(View(), row.order);
      if q :| q in payments && payments[q].order == row.order && Active(payments[q]) {
        active := q;
      } else {
        payments := payments[p := row];
        active := p;
      }
    }

    /** ON CONFLICT DO NOTHING over the key index and the live-attempt index. */
    method InsertAttempt(a: AttemptId, row: AttemptRow) returns (affected: nat)
      requires a !in attempts
      modifies this`attempts
      ensures affected == 0 || affected == 1
      ensures affected == 0 <==>
        KeyUsed(old(attempts), row.key) || exists x :: Occupies(old(View()), x, row.payment)
      ensures attempts == if affected == 1 then old(attempts)[a := row] else old(attempts)
    {
      LiveIff(View(), row.payment);
      affected := 0;
      if !KeyUsed(attempts, row.key) && !HasLiveAttempt(attempts, row.payment) {
        attempts, affected := attempts[a := row], 1;
      }
    }

    /** prepareCheckout: an attempt is reused, opened under the one active payment of the order, or
        refused. */
    method PrepareRows(o: OrderId, key: Key, p: PaymentId, a: AttemptId) returns (r: Prepared)
      requires PaymentKeys(orders, payments) && AttemptKeys(payments, attempts) && OneActivePayment(payments)
      requires UniqueKeys(attempts) && o in orders && p !in payments && a !in attempts
      modifies this`payments, this`attempts
      ensures Answers(old(View()), View(), r, o, key, p, a)
    {
      var found := FindAttemptByKey(key);
      if found.Some? {
        KeyIsUnique(View(), found.value, key, o);
        return if payments[attempts[found.value].payment].order == o then Reused(found.value) else KeyConflict;
      }
      ghost var before := View();
      var active := CreateOrGetActivePayment(p, NewPayment(o, orders[o].amount, orders[o].currency));
      BusyIff(before, o, active);
      LiveIff(View(), active);
      var affected := InsertAttempt(a, NewAttempt(active, key));
      if affected == 1 { return Opened(active, a); }
      // The key was unused a statement ago; what a concurrent request can do in between is a
      // matter of LedgerSteps.
      return InProgress;
    }

    /** PrepareCheckout: the same in one transaction, which never opens an attempt under a failed
        payment. */
    method PrepareCheckout(o: OrderId, key: Key, p: PaymentId, a: AttemptId) returns (r: Prepared)
      requires DbOk(View()) && o in orders && p !in payments && a !in attempts
      modifies this`payments, this`attempts
      ensures DbOk(View())
      ensures LedgerTheorems.FailedClosed(old(View())) ==> LedgerTheorems.FailedClosed(View())
      ensures Answers(old(View()), View(), r, o, key, p, a)
      ensures r.Reused? <==> KeyServed(old(View()), key, o)
      ensures r.KeyConflict? <==> KeyElsewhere(old(View()), key, o)
      ensures r.InProgress? <==> !KeyUsed(old(attempts), key) && Busy(old(View()), o)
      ensures r.Opened? <==> !KeyUsed(old(attempts), key) && !Busy(old(View()), o)
    {
      r := PrepareRows(o, key, p, a);
      AnswersAreSound(old(View()), View(), r, o, key, p, a);
      AnswersIff(old(View()), View(), r, o, key, p, a);
    }

    /** SaveSession: accepted while the attempt is created and nobody else has the session, or when
        repeated with the same session. */
    method SaveSession(a: AttemptId, session: SessionId) returns (ok: bool)
      requires a in attempts
      modifies this`attempts
      ensures View()
              == if SessionTaken(old(attempts), a, session) then old(View())
                 else AttachSession(old(View()), a, session).0
      ensures ok <==>
        || (old(attempts)[a].status.Created?
            && forall x | x in old(attempts) && x != a :: old(attempts)[x].session != Some(session))
        || (!old(attempts)[a].status.Created? && old(attempts)[a].session == Some(session))
      ensures attempts
              == if ok && old(attempts)[a].status.Created?
                 then old(attempts)[a := old(attempts)[a].(status := AttemptStatus.Pending, session := Some(session))]
                 else old(attempts)
    {
      if attempts[a].status.Created? {
        if x :| x in attempts && x != a && attempts[x].session == Some(session) { return false; }
        attempts := attempts[a := attempts[a].(status := AttemptStatus.Pending, session := Some(session))];
        return true;
      }
      return attempts[a].session == Some(session);
    }

    /** applyEffect: each guarded update must match exactly one row; `ok` is false at the first
        that does not. */
    method ApplyWrites(f: Fact, e: Effect) returns (ok: bool, applied: bool)
      requires f.Reports?
      modifies this`orders, this`payments, this`attempts
      ensures View() == WrittenSoFar(old(View()), f, e)
      ensures ok <==> ApplyEffect(old(View()), f, e).Some?
      ensures ok ==> View() == ApplyEffect(old(View()), f, e).value && (applied <==> e != NOTHING)
    {
      applied := false;
      if e.attempt.Some? {
        if f.attempt !in attempts || AttemptSettled(attempts[f.attempt].status) { return false, false; }
        attempts, applied := attempts[f.attempt := attempts[f.attempt].(status := e.attempt.value)], true;
      }
      if e.payment.Some? {
        if f.payment !in payments || PaymentSettled(payments[f.payment].status) { return false, false; }
        payments, applied := payments[f.payment := payments[f.payment].(status := e.payment.value)], true;
      }
      if e.orderPaid {
        if f.order !in orders || !orders[f.order].status.Pending? { return false, false; }
        orders, applied := orders[f.order := orders[f.order].(status := Paid)], true;
      }
      ok := true;
    }

    /** Process: locks the inbox row and the aggregate, decides, writes and closes the event, or
        rolls everything back. */
    method Process(e: EventId, f: Fact) returns (r: Processed)
      modifies this
      ensures Ended(r, View(), inbox) == ProcessEvent(old(View()), old(inbox), e, f)
      ensures Answered(old(View()), old(inbox), e, f, r)
      ensures Finished(old(View()), old(inbox), e, f, r, View(), inbox)
    {
      EachAnswer(View(), inbox, e, f);
      EachEnd(View(), inbox, e, f);
      if e !in inbox { return Rejected(NotFound); }
      if inbox[e].status.Processed? { return AlreadyProcessed; }
      var verdict := VerdictOf(View(), f);
      var cause := CauseOf(f, verdict);
      if cause.Some? { return Rejected(cause.value); }
      var savedOrders, savedPayments, savedAttempts := orders, payments, attempts;
      var ok, applied := ApplyWrites(f, LedgerSteps.PlanOf(verdict));
      if !ok {
        orders, payments, attempts := savedOrders, savedPayments, savedAttempts;
        return Rejected(InvariantViolated);
      }
      inbox := inbox[e := Inbox.MarkProcessed(inbox[e])];
      return Done(applied);
    }
  }

  datatype Ended = Ended(result: Processed, db: Db, inbox: map<EventId, Inbox.Row>)

  /** The specification of one processing transaction. */
  function ProcessEvent(db: Db, inbox: map<EventId, Inbox.Row>, e: EventId, f: Fact): Ended {
    if e !in inbox then Ended(Rejected(NotFound), db, inbox)
    else if inbox[e].status.Processed? then Ended(AlreadyProcessed, db, inbox)
    else
      var cause := CauseOf(f, VerdictOf(db, f));
      if cause.Some? then Ended(Rejected(cause.value), db, inbox)
      else
        var plan := LedgerSteps.PlanOf(VerdictOf(db, f));
        var written := ApplyEffect(db, f, plan);
        if written.None? then Ended(Rejected(InvariantViolated), db, inbox)
        else Ended(Done(plan != NOTHING), written.value, inbox[e := Inbox.MarkProcessed(inbox[e])])
  }

  /** Each answer exactly in its case. The order of a success has to be pending still. */
  ghost predicate Answered(db: Db, inbox: map<EventId, Inbox.Row>, e: EventId, f: Fact, r: Processed) {
    var open := e in inbox && !inbox[e].status.Processed?;
    && (r == Rejected(NotFound) <==> e !in inbox)
    && (r == AlreadyProcessed <==> e in inbox && inbox[e].status.Processed?)
    && (r == Rejected(Cause.Unreadable) <==> open && f.Unreadable?)
    && (r == Rejected(Cause.ReferenceMismatch) <==>
        open && f.Reports?
        && (!Belongs(db, f) || db.payments[f.payment].provider != STRIPE || (SameMoney(db, f) && OtherSession(db, f))))
    && (r == Rejected(Cause.AmountMismatch) <==>
        open && Belongs(db, f) && db.payments[f.payment].provider == STRIPE && !SameMoney(db, f))
    && (r == Rejected(Cause.StateConflict) <==>
        open && About(db, f) && Contradicts(f.outcome, db.payments[f.payment].status, db.attempts[f.attempt].status))
    && (r == Rejected(InvariantViolated) <==>
        open && Due(db, f) && f.outcome.Succeeded? && !db.orders[f.order].status.Pending?)
    && (r.Done? && r.applied ==> Due(db, f))
    && (r.Done? && !r.applied ==>
        About(db, f) && !Lands(f.outcome, db.payments[f.payment].status, db.attempts[f.attempt].status))
  }

  /** The rows afterwards: those the event reports, together with its closed inbox row, or those before. */
  ghost predicate Finished(db: Db, inbox: map<EventId, Inbox.Row>, e: EventId, f: Fact, r: Processed, after: Db,
                           closed: map<EventId, Inbox.Row>) {
    && (r.Done? ==>
        && e in inbox
        && closed == inbox[e := inbox[e].(status := Inbox.Processed, attempts := inbox[e].attempts + 1)])
    && (!r.Done? ==> closed == inbox)
    && (r.Done? && r.applied ==> Belongs(db, f) && Landed(db, after, f))
    && (!r.Done? || !r.applied ==> after == db)
  }

  lemma EachAnswer(db: Db, inbox: map<EventId, Inbox.Row>, e: EventId, f: Fact)
    ensures Answered(db, inbox, e, f, ProcessEvent(db, inbox, e, f).result)
  {
    if Belongs(db, f) {
      DecideAnswers(f.outcome, db.payments[f.payment].status, db.attempts[f.attempt].status);
      if Due(db, f) { WritesLand(db, f); }
    }
  }

  lemma EachEnd(db: Db, inbox: map<EventId, Inbox.Row>, e: EventId, f: Fact)
    ensures var end := ProcessEvent(db, inbox, e, f); Finished(db, inbox, e, f, end.result, end.db, end.inbox)
  {
    if Belongs(db, f) {
      DecideAnswers(f.outcome, db.payments[f.payment].status, db.attempts[f.attempt].status);
      if Due(db, f) { WritesLand(db, f); }
    }
  }

  /** The guarded updates of an event that has something to do find their rows, but for an order that is
      not pending, and leave what the event reports. */
  lemma WritesLand(db: Db, f: Fact)
    requires Due(db, f)
    ensures VerdictOf(db, f).Write? && VerdictOf(db, f).effect != NOTHING
    ensures var written := ApplyEffect(db, f, VerdictOf(db, f).effect);
            && (written.None? <==> f.outcome.Succeeded? && !db.orders[f.order].status.Pending?)
            && (written.Some? ==> Landed(db, written.value, f))
  {
    var p, a := db.payments[f.payment].status, db.attempts[f.attempt].status;
    DecideAnswers(f.outcome, p, a);
    assert db.payments[f.payment := db.payments[f.payment]] == db.payments;
    assert db.attempts[f.attempt := db.attempts[f.attempt]] == db.attempts;
  }

  /** On a consistent ledger a transaction never violates an invariant, keeps the ledger
      consistent, writes exactly the effect the verdict approved, and after it the same event has
      nothing left to write. */
  lemma ProcessIsSound(db: Db, inbox: map<EventId, Inbox.Row>, e: EventId, f: Fact)
    requires DbOk(db)
    ensures var end := ProcessEvent(db, inbox, e, f);
            && end.result != Rejected(InvariantViolated) && DbOk(end.db)
            && (end.result.Done? ==>
                && (end.result.applied <==> VerdictOf(db, f).Write?)
                && e in end.inbox && end.inbox[e].status.Processed? && !VerdictOf(end.db, f).Write?)
            && (!end.result.Done? ==> end.db == db && end.inbox == inbox)
  {
    if VerdictOf(db, f).Write? {
      ApprovedWriteIsSound(db, f);
    } else if f.Reports? {
      assert ApplyEffect(db, f, NOTHING) == Some(db);
    }
  }

  lemma ApprovedWriteIsSound(db: Db, f: Fact)
    requires DbOk(db) && VerdictOf(db, f).Write?
    ensures VerdictOf(db, f).effect != NOTHING
    ensures var written := ApplyEffect(db, f, VerdictOf(db, f).effect);
            written.Some? && DbOk(written.value) && !VerdictOf(written.value, f).Write?
  {
    var effect := VerdictOf(db, f).effect;
    LedgerProofs.EffectShapes(db, f);
    assert DbOk(LedgerProofs.Written(db, f, effect)) by { LedgerProofs.WrittenKeepsDb(db, f, effect); }
    LedgerRuns.CommitSpends(db, f);
    LedgerTheorems.SpentWritesNothing(LedgerProofs.Written(db, f, effect), f);
  }

  /** Processing the same event again changes nothing, whether or not its flag survived. */
  lemma ProcessTwice(db: Db, inbox: map<EventId, Inbox.Row>, again: map<EventId, Inbox.Row>, e: EventId, f: Fact)
    requires DbOk(db) && ProcessEvent(db, inbox, e, f).result.Done?
    ensures ProcessEvent(ProcessEvent(db, inbox, e, f).db, again, e, f).db == ProcessEvent(db, inbox, e, f).db
  {
    ProcessIsSound(db, inbox, e, f);
  }
}
