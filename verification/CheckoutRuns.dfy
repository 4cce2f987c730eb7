/** The checkout use case is a run of ledger steps, so what holds over every run holds of it. */
module CheckoutRuns {
  import opened Common
  import opened Ledger
  import L = LedgerSteps
  import Checkout
  import LedgerRefinement
  import LedgerRuns
  import LedgerStore

  /** A new request for an order that can be paid. */
  predicate Ready(facts: L.Facts, s: L.State, c: L.CheckoutId, o: OrderId) {
    c !in s.checkouts && o in s.db.orders && s.db.orders[o].status.Pending?
  }

  /** The rows of a checkout are prepared in a run, which ends with the checkout at its attempt. */
  lemma PrepareIsRun(facts: L.Facts, steps: seq<L.Step>, s: L.State, c: L.CheckoutId, between: Db,
                     answer: LedgerStore.Prepared, o: OrderId, key: Key, p: PaymentId, a: AttemptId)
    returns (longer: seq<L.Step>)
    requires L.Run(facts, steps) == Some(s) && Ready(facts, s, c, o) && p !in s.db.payments && a !in s.db.attempts
    requires LedgerStore.Answers(s.db, between, answer, o, key, p, a) && (answer.Reused? || answer.Opened?)
    ensures L.Run(facts, longer) == Some(s.(db := between, checkouts := s.checkouts[c := L.Prepared(answer.attempt)]))
    ensures steps <= longer
  {
    var start := L.Started(o, s.db.orders[o].amount, s.db.orders[o].currency, key);
    longer := LedgerRefinement.Extend(facts, steps, L.StartCheckout(c, o, key), s);
    var s1 := L.WithCheckout(s, c, start);
    if answer.Reused? {
      longer := LedgerRefinement.Extend(facts, longer, L.FindKey(c, Some(answer.attempt)), s1);
      assert s1.checkouts[c := L.Prepared(answer.attempt)] == s.checkouts[c := L.Prepared(answer.attempt)];
    } else {
      longer := LedgerRefinement.Extend(facts, longer, L.FindKey(c, None), s1);
      var s2 := L.WithCheckout(s, c, L.Missing(o, start.amount, start.currency, key));
      assert s1.checkouts[c := s2.checkouts[c]] == s2.checkouts;
      longer := OpenIsRun(facts, longer, s, s2, c, between, answer.payment, o, key, p, a);
    }
  }

  lemma OpenIsRun(facts: L.Facts, steps: seq<L.Step>, s: L.State, missing: L.State, c: L.CheckoutId, between: Db,
                  q: PaymentId, o: OrderId, key: Key, p: PaymentId, a: AttemptId)
    returns (longer: seq<L.Step>)
    requires L.Run(facts, steps) == Some(missing) && p !in s.db.payments && a !in s.db.attempts && o in s.db.orders
    requires missing == L.WithCheckout(s, c, L.Missing(o, s.db.orders[o].amount, s.db.orders[o].currency, key))
    requires !KeyUsed(s.db.attempts, key) && !Busy(s.db, o) && LedgerStore.OpenedUnder(s.db, between, q, o, key, p, a)
    ensures L.Run(facts, longer) == Some(s.(db := between, checkouts := s.checkouts[c := L.Prepared(a)]))
    ensures steps <= longer
  {
    assert missing.checkouts[c := L.Prepared(a)] == s.checkouts[c := L.Prepared(a)];
    LedgerStore.ActiveIff(s.db, o);
    if HasActivePayment(s.db.payments, o) {
      LedgerStore.NotBusyIsFree(s.db, o, q);
      longer := LedgerRefinement.Extend(facts, steps, L.JoinPayment(c, q), missing);
      var joining := L.WithCheckout(missing, c, L.Joining(o, key, q));
      assert joining.checkouts[c := L.Prepared(a)] == s.checkouts[c := L.Prepared(a)];
      longer := LedgerRefinement.Extend(facts, longer, L.OpenAttempt(c, a), joining);
    } else {
      longer := LedgerRefinement.Extend(facts, steps, L.OpenPayment(c, p, a), missing);
    }
  }

  /** What the provider's reply makes of the rows is at most one more step. */
  lemma ReplyIsRun(facts: L.Facts, steps: seq<L.Step>, s: L.State, c: L.CheckoutId, after: Db, x: AttemptId, o: OrderId,
                   reply: Checkout.Reply, r: Checkout.Result, asked: Option<Checkout.Request>)
    returns (longer: seq<L.Step>)
    requires L.Run(facts, steps) == Some(s) && c in s.checkouts && s.checkouts[c] == L.Prepared(x)
    requires Checkout.Replied(s.db, after, x, o, reply, r, asked) && L.AttemptFree(facts, s, x)
    ensures L.Run(facts, longer) == Some(s.(db := after)) && steps <= longer
  {
    longer := steps;
    Checkout.ReplyRows(s.db, after, x, o, reply, r, asked);
    if after != s.db {
      LedgerRuns.InvHolds(facts, steps);
      NobodyHas(s.db, after, x, o, reply, r, asked);
      longer := LedgerRefinement.Extend(facts, steps, L.SaveSession(c, reply.session), s);
    }
  }

  lemma NobodyHas(db: Db, after: Db, x: AttemptId, o: OrderId, reply: Checkout.Reply, r: Checkout.Result,
                  asked: Option<Checkout.Request>)
    requires SessionsOk(db.attempts) && Checkout.Replied(db, after, x, o, reply, r, asked) && after != db
    ensures reply.Opened? && forall y | y in db.attempts :: db.attempts[y].session != Some(reply.session)
  {
  }

  /** From any reachable state, for a request whose attempt nobody holds: every way the use case can
      end is a run with the same rows, which leaves other requests and transactions alone. */
  lemma CheckoutIsRun(facts: L.Facts, steps: seq<L.Step>, c: L.CheckoutId, between: Db, after: Db,
                      answer: LedgerStore.Prepared, o: OrderId, key: Key, p: PaymentId, a: AttemptId,
                      reply: Checkout.Reply, r: Checkout.Result, asked: Option<Checkout.Request>)
    returns (longer: seq<L.Step>)
    requires L.Run(facts, steps).Some?
    requires var s := L.Run(facts, steps).value;
             && c !in s.checkouts && p !in s.db.payments && a !in s.db.attempts
             && Checkout.CheckedOut(s.db, between, after, answer, o, key, p, a, reply, r, asked)
             && (asked.Some? ==> L.AttemptFree(facts, s, asked.value.attempt))
    ensures L.Run(facts, longer).Some? && steps <= longer
    ensures var s, end := L.Run(facts, steps).value, L.Run(facts, longer).value;
            && end.db == after && end.txs == s.txs && end.log == s.log && end.processed == s.processed
            && forall d | d != c :: d in end.checkouts <==> d in s.checkouts
    ensures var s, end := L.Run(facts, steps).value, L.Run(facts, longer).value;
            forall d | d != c && d in s.checkouts :: end.checkouts[d] == s.checkouts[d]
  {
    longer := steps;
    var s := L.Run(facts, steps).value;
    if after != s.db {
      var x := answer.attempt;
      longer := PrepareIsRun(facts, steps, s, c, between, answer, o, key, p, a);
      var prepared := s.(db := between, checkouts := s.checkouts[c := L.Prepared(x)]);
      if after != between { longer := ReplyIsRun(facts, longer, prepared, c, after, x, o, reply, r, asked); }
    }
  }
}
