/** No order gets stuck: whatever failed or expired before, a pending order can still be paid. */
module LedgerProgress {
  import opened Common
  import opened Transition
  import opened Ledger
  import opened LedgerSteps
  import CheckoutRuns
  import LedgerProofs
  import LedgerRuns
  import LedgerStore
  import LedgerVerdicts

  /** The attempt waits for the customer or is under way, under a payment that is not settled. */
  ghost predicate CanPay(db: Db, o: OrderId, p: PaymentId, a: AttemptId) {
    && p in db.payments && db.payments[p].order == o
    && (db.payments[p].status.Pending? || db.payments[p].status.Processing?)
    && a in db.attempts && db.attempts[a].payment == p
    && (db.attempts[a].status.Created? || db.attempts[a].status.Pending?)
  }

  /** When an expiry is applied, the order is left pending and with nothing under way. */
  lemma ExpiryFreesOrder(facts: Facts, steps: seq<Step>, t: TxId)
    requires Run(facts, steps).Some? && Enabled(facts, Run(facts, steps).value, Commit(t))
    requires Run(facts, steps).value.txs[t].plan.value.attempt == Some(AttemptStatus.Expired)
    ensures var s := Run(facts, steps).value;
            var f := FactOf(facts, s.txs[t].event);
            var after := Next(facts, s, Commit(t)).db;
            && f.Reports? && f.order in after.orders && after.orders[f.order].status.Pending?
            && Pays(after, f.payment, f.order) && !Busy(after, f.order)
  {
    var s := Run(facts, steps).value;
    LedgerRuns.InvHolds(facts, steps);
    LedgerRuns.CommitResult(facts, s, t);
    var f := FactOf(facts, s.txs[t].event);
    assert LedgerRuns.TxOk(facts, s.db, s.txs[t]);
    LedgerProofs.UnsettledMeansUnpaid(s.db, f.payment);
    ExpiredFrees(s.db, f);
  }

  lemma ExpiredFrees(db: Db, f: Fact)
    requires DbOk(db) && Joined(db, f) && LedgerProofs.Shape(db, f, LedgerProofs.EXPIRE)
    ensures var after := LedgerProofs.Written(db, f, LedgerProofs.EXPIRE);
            Pays(after, f.payment, f.order) && !Busy(after, f.order)
  {
    var after := LedgerProofs.Written(db, f, LedgerProofs.EXPIRE);
    assert Active(db.payments[f.payment]) && Live(db.attempts[f.attempt]);
    if p, a :| Pays(after, p, f.order) && Occupies(after, a, p) {
      assert Active(db.payments[p]);
      assert p == f.payment;
      assert a != f.attempt && Live(db.attempts[a]);
    }
  }

  /** Then, and whenever nothing of a pending order is under way, a checkout with a new key opens a
      new attempt, which can pay the order. */
  lemma NewKeyOpens(facts: Facts, steps: seq<Step>, c: CheckoutId, o: OrderId, key: Key, p: PaymentId, a: AttemptId)
    returns (longer: seq<Step>, q: PaymentId)
    requires Run(facts, steps).Some?
    requires var s := Run(facts, steps).value;
             && c !in s.checkouts && p !in s.db.payments && a !in s.db.attempts
             && o in s.db.orders && s.db.orders[o].status.Pending?
             && !KeyUsed(s.db.attempts, key) && !Busy(s.db, o)
    ensures steps <= longer && Run(facts, longer).Some?
    ensures var s, after := Run(facts, steps).value, Run(facts, longer).value;
            && after.db.attempts == s.db.attempts[a := AttemptRow(q, STRIPE, AttemptStatus.Created, key, None)]
            && after.db.orders == s.db.orders && CanPay(after.db, o, q, a)
            && c in after.checkouts && after.checkouts[c] == Prepared(a)
  {
    var s := Run(facts, steps).value;
    LedgerRuns.InvHolds(facts, steps);
    var between;
    q, between := OpenedRows(s.db, o, key, p, a);
    longer := CheckoutRuns.PrepareIsRun(facts, steps, s, c, between, LedgerStore.Opened(q, a), o, key, p, a);
  }

  lemma OpenedRows(db: Db, o: OrderId, key: Key, p: PaymentId, a: AttemptId) returns (q: PaymentId, between: Db)
    requires DbOk(db) && p !in db.payments && a !in db.attempts && o in db.orders && db.orders[o].status.Pending?
    requires !KeyUsed(db.attempts, key) && !Busy(db, o)
    ensures LedgerStore.Answers(db, between, LedgerStore.Opened(q, a), o, key, p, a)
    ensures between.attempts == db.attempts[a := AttemptRow(q, STRIPE, AttemptStatus.Created, key, None)]
    ensures between.orders == db.orders && CanPay(between, o, q, a)
  {
    if x :| Pays(db, x, o) {
      q := x;
      between := db.(attempts := db.attempts[a := AttemptRow(q, STRIPE, AttemptStatus.Created, key, None)]);
      UnpaidIsUnsettled(db, o, q);
    } else {
      q := p;
      between := db.(attempts := db.attempts[a := AttemptRow(q, STRIPE, AttemptStatus.Created, key, None)],
                     payments := db.payments[p := PaymentRow(o, STRIPE, Status.Pending, db.orders[o].amount,
                                                             db.orders[o].currency)]);
    }
  }

  lemma UnpaidIsUnsettled(db: Db, o: OrderId, p: PaymentId)
    requires DbOk(db) && o in db.orders && db.orders[o].status.Pending? && Pays(db, p, o)
    ensures db.payments[p].status.Pending? || db.payments[p].status.Processing?
    ensures forall a | Occupies(db, a, p) :: CanPay(db, o, p, a)
  {
    assert db.payments[p].status.Succeeded? ==> HasSettledMoney(db.payments, o);
    forall a | Occupies(db, a, p) ensures !db.attempts[a].status.Succeeded? {
      assert db.attempts[a].status.Succeeded? ==> HasSucceeded(db.attempts, p);
    }
  }

  /** A success reported for the whole amount of the order. */
  function SuccessOf(row: OrderRow, o: OrderId, p: PaymentId, a: AttemptId): Fact {
    Reports(o, p, a, None, row.amount, row.currency, Outcome.Succeeded)
  }

  lemma SuccessPays(db: Db, o: OrderId, p: PaymentId, a: AttemptId)
    requires DbOk(db) && CanPay(db, o, p, a) && o in db.orders
    ensures VerdictOf(db, SuccessOf(db.orders[o], o, p, a))
            == Write(Effect(Some(AttemptStatus.Succeeded), Some(Status.Succeeded), true))
  {
  }

  lemma UnusedKey(ts: AttemptTable) returns (key: Key)
    ensures !KeyUsed(ts, key)
  {
    var used := set x | x in ts :: ts[x].key;
    key := LedgerVerdicts.AboveAll(used);
    forall x | x in ts ensures ts[x].key != key { assert ts[x].key in used; }
  }

  lemma NextCheckoutOpens(facts: Facts, steps: seq<Step>, o: OrderId)
    returns (longer: seq<Step>, p: PaymentId, a: AttemptId)
    requires Run(facts, steps).Some?
    requires var s := Run(facts, steps).value; o in s.db.orders && s.db.orders[o].status.Pending? && !Busy(s.db, o)
    ensures steps <= longer && Run(facts, longer).Some?
    ensures var db := Run(facts, longer).value.db; o in db.orders && CanPay(db, o, p, a)
  {
    var s := Run(facts, steps).value;
    var c := LedgerVerdicts.AboveAll(s.checkouts.Keys);
    var key := UnusedKey(s.db.attempts);
    a := LedgerVerdicts.AboveAll(s.db.attempts.Keys);
    var spare := LedgerVerdicts.AboveAll(s.db.payments.Keys);
    longer, p := NewKeyOpens(facts, steps, c, o, key, spare, a);
  }

  /** In every reachable state a pending order has an attempt that can pay it, or gets one from the next
      checkout; and a success reported for that attempt, for the order's amount, pays the order. */
  lemma PendingOrderCanBePaid(facts: Facts, steps: seq<Step>, o: OrderId)
    returns (longer: seq<Step>, p: PaymentId, a: AttemptId)
    requires Run(facts, steps).Some?
    requires var s := Run(facts, steps).value; o in s.db.orders && s.db.orders[o].status.Pending?
    ensures steps <= longer && Run(facts, longer).Some?
    ensures var db := Run(facts, longer).value.db;
            && o in db.orders && CanPay(db, o, p, a)
            && VerdictOf(db, SuccessOf(db.orders[o], o, p, a))
               == Write(Effect(Some(AttemptStatus.Succeeded), Some(Status.Succeeded), true))
  {
    var s := Run(facts, steps).value;
    LedgerRuns.InvHolds(facts, steps);
    longer := steps;
    if Busy(s.db, o) {
      p, a :| Pays(s.db, p, o) && Occupies(s.db, a, p);
      UnpaidIsUnsettled(s.db, o, p);
    } else {
      longer, p, a := NextCheckoutOpens(facts, steps, o);
    }
    LedgerRuns.InvHolds(facts, longer);
    SuccessPays(Run(facts, longer).value.db, o, p, a);
  }
}
