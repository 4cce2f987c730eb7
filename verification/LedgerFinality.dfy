/** For which states a no-op or a conflict is final, exactly: the only question is whether a checkout
    can still give the attempt another session. */
module LedgerFinality {
  import opened Common
  import opened Transition
  import opened Ledger
  import opened LedgerSteps
  import opened LedgerProofs
  import opened LedgerRefinement
  import opened LedgerRuns
  import opened LedgerTheorems
  import opened LedgerVerdicts

  /** The checkout is at the attempt, or will find it under its key. */
  predicate Leads(db: Db, x: Checkout, a: AttemptId) {
    match x
    case Prepared(b) => b == a
    case Started(o, _, _, key) => KeyServes(db, a, key, o)
    case Missing(o, _, _, key) => KeyServes(db, a, key, o)
    case Joining(o, key, _) => KeyServes(db, a, key, o)
  }

  predicate InFlight(s: State, a: AttemptId) { exists c | c in s.checkouts :: Leads(s.db, s.checkouts[c], a) }

  /** The attempt's order can still be checked out. */
  predicate OrderOpen(db: Db, a: AttemptId) {
    && a in db.attempts && db.attempts[a].payment in db.payments
    && db.payments[db.attempts[a].payment].order in db.orders
    && db.orders[db.payments[db.attempts[a].payment].order].status.Pending?
  }

  /** A request can still bring a session for the attempt. */
  predicate Resumable(s: State, a: AttemptId) { OrderOpen(s.db, a) || InFlight(s, a) }

  // ---- Without such a request the session is fixed -----------------------------------------------------

  lemma OrderStaysClosed(db: Db, after: Db, a: AttemptId)
    requires DbOk(db) && Evolves(db, after) && a in db.attempts && !OrderOpen(db, a)
    ensures a in after.attempts && !OrderOpen(after, a)
    ensures after.attempts[a].key == db.attempts[a].key && after.attempts[a].payment == db.attempts[a].payment
    ensures db.attempts[a].payment in after.payments
    ensures after.payments[db.attempts[a].payment].order == db.payments[db.attempts[a].payment].order
  {
    var p := db.attempts[a].payment;
    assert AttemptEvolves(db.payments, db.attempts[a], after.attempts[a]);
    assert PaymentEvolves(db.payments[p], after.payments[p]);
    assert OrderEvolves(db.orders[db.payments[p].order], after.orders[db.payments[p].order]);
  }

  lemma LeadsKept(db: Db, after: Db, x: Checkout, a: AttemptId)
    requires DbOk(db) && Evolves(db, after) && a in db.attempts && Leads(after, x, a)
    ensures Leads(db, x, a)
  {
    var p := db.attempts[a].payment;
    assert AttemptEvolves(db.payments, db.attempts[a], after.attempts[a]);
    assert PaymentEvolves(db.payments[p], after.payments[p]);
  }

  /** No step makes the attempt resumable again. */
  lemma StaysOut(facts: Facts, s: State, step: Step, a: AttemptId)
    requires Inv(facts, s) && Enabled(facts, s, step) && a in s.db.attempts && !Resumable(s, a)
    ensures a in Next(facts, s, step).db.attempts && !Resumable(Next(facts, s, step), a)
    ensures Next(facts, s, step).db.attempts[a].session == s.db.attempts[a].session
  {
    var after := Next(facts, s, step);
    StepEvolves(facts, s, step);
    OrderStaysClosed(s.db, after.db, a);
    SessionKept(facts, s, step, a) by {
      if step.SaveSession? { assert !Leads(s.db, s.checkouts[step.checkout], a); }
    }
    forall c | c in after.checkouts ensures !Leads(after.db, after.checkouts[c], a) {
      if c in s.checkouts { assert !Leads(s.db, s.checkouts[c], a); }
      if Leads(after.db, after.checkouts[c], a) {
        LeadsKept(s.db, after.db, after.checkouts[c], a);
        NothingNewLeads(facts, s, step, a, c);
      }
    }
  }

  /** The steps that change where a checkout stands. */
  predicate MovesCheckout(step: Step) {
    step.StartCheckout? || step.FindKey? || step.OpenPayment? || step.JoinPayment? || step.OpenAttempt? || step.Abandon?
  }

  lemma OthersStay(facts: Facts, s: State, step: Step, c: CheckoutId)
    requires Enabled(facts, s, step) && c in Next(facts, s, step).checkouts
    requires !MovesCheckout(step) || step.Abandon? || step.checkout != c
    ensures c in s.checkouts && Next(facts, s, step).checkouts[c] == s.checkouts[c]
  {
  }

  /** A request that leads to the attempt led to it before the step, or its order is open. */
  lemma LedBefore(facts: Facts, s: State, step: Step, a: AttemptId)
    requires Enabled(facts, s, step) && a in s.db.attempts && MovesCheckout(step) && !step.Abandon?
    requires Leads(s.db, Next(facts, s, step).checkouts[step.checkout], a)
    ensures step.StartCheckout? ==> OrderOpen(s.db, a)
    ensures !step.StartCheckout? ==> step.checkout in s.checkouts && Leads(s.db, s.checkouts[step.checkout], a)
  {
  }

  lemma NothingNewLeads(facts: Facts, s: State, step: Step, a: AttemptId, c: CheckoutId)
    requires Enabled(facts, s, step) && a in s.db.attempts && !Resumable(s, a)
    requires c in Next(facts, s, step).checkouts
    ensures !Leads(s.db, Next(facts, s, step).checkouts[c], a)
  {
    if !MovesCheckout(step) || step.Abandon? || step.checkout != c {
      OthersStay(facts, s, step, c);
    } else if Leads(s.db, Next(facts, s, step).checkouts[c], a) {
      LedBefore(facts, s, step, a);
    }
  }

  lemma {:induction false} SessionFixedOutside(facts: Facts, steps: seq<Step>, more: seq<Step>, a: AttemptId)
    requires Run(facts, steps).Some? && Run(facts, steps + more).Some?
    requires a in Run(facts, steps).value.db.attempts && !Resumable(Run(facts, steps).value, a)
    ensures var now, later := Run(facts, steps).value, Run(facts, steps + more).value;
            && a in later.db.attempts && !Resumable(later, a)
            && later.db.attempts[a].session == now.db.attempts[a].session
  {
    if more == [] {
      assert steps + more == steps;
    } else {
      var longer, init := steps + more, more[..|more| - 1];
      assert longer[..|longer| - 1] == steps + init;
      SessionFixedOutside(facts, steps, init, a);
      InvHolds(facts, steps + init);
      StaysOut(facts, Run(facts, steps + init).value, longer[|longer| - 1], a);
    }
  }

  // ---- With one, another session can be attached --------------------------------------------------------

  /** The state after a prefix of steps that keep the rows the event is judged by. */
  ghost predicate SameVerdict(facts: Facts, steps: seq<Step>, more: seq<Step>, f: Fact) {
    && Run(facts, steps).Some? && Run(facts, steps + more).Some?
    && Joined(Run(facts, steps).value.db, f) && Joined(Run(facts, steps + more).value.db, f)
    && VerdictOf(Run(facts, steps + more).value.db, f) == VerdictOf(Run(facts, steps).value.db, f)
    && Run(facts, steps + more).value.db.attempts == Run(facts, steps).value.db.attempts
  }

  lemma OneStepFurther(facts: Facts, steps: seq<Step>, more: seq<Step>, step: Step, f: Fact)
    requires SameVerdict(facts, steps, more, f)
    requires Enabled(facts, Run(facts, steps + more).value, step)
    requires var s := Run(facts, steps + more).value;
             var after := Next(facts, s, step).db;
             && after.attempts == s.db.attempts && after.orders == s.db.orders
             && f.payment in after.payments && after.payments[f.payment] == s.db.payments[f.payment]
    ensures SameVerdict(facts, steps, more + [step], f)
    ensures Run(facts, steps + (more + [step])) == Some(Next(facts, Run(facts, steps + more).value, step))
  {
    assert steps + (more + [step]) == (steps + more) + [step];
    RunOneMore(facts, steps + more, step);
  }

  /** Whoever holds the attempt can be rolled back. */
  lemma FreeTheAttempt(facts: Facts, steps: seq<Step>, f: Fact) returns (more: seq<Step>)
    requires Run(facts, steps).Some? && Joined(Run(facts, steps).value.db, f)
    ensures SameVerdict(facts, steps, more, f)
    ensures var s, after := Run(facts, steps).value, Run(facts, steps + more).value;
            after.checkouts == s.checkouts && after.db == s.db && AttemptFree(facts, after, f.attempt)
  {
    var s := Run(facts, steps).value;
    more := [];
    assert steps + [] == steps;
    if t :| t in s.txs && HoldsAttempt(facts, s.txs[t], f.attempt) {
      InvHolds(facts, steps);
      OneStepFurther(facts, steps, [], Rollback(t), f);
      more := [] + [Rollback(t)];
      forall u | u in s.txs && u != t ensures !HoldsAttempt(facts, s.txs[u], f.attempt) {
        assert Disjoint(facts, s.txs[t], s.txs[u]);
      }
    }
  }

  /** A request that found no attempt under the key finds it at its next statement. */
  lemma LeaveMissing(
    facts: Facts, steps: seq<Step>, before: seq<Step>, f: Fact, c: CheckoutId)
    returns (more: seq<Step>)
    requires SameVerdict(facts, steps, before, f) && AttemptFree(facts, Run(facts, steps + before).value, f.attempt)
    requires var s := Run(facts, steps + before).value;
             c in s.checkouts && s.checkouts[c].Missing? && Leads(s.db, s.checkouts[c], f.attempt)
    ensures SameVerdict(facts, steps, more, f) && AttemptFree(facts, Run(facts, steps + more).value, f.attempt)
    ensures var s := Run(facts, steps + more).value;
            c in s.checkouts && !s.checkouts[c].Missing? && Leads(s.db, s.checkouts[c], f.attempt)
  {
    var s := Run(facts, steps + before).value;
    var o := s.checkouts[c].order;
    var step;
    if HasActivePayment(s.db.payments, o) {
      var q :| q in s.db.payments && s.db.payments[q].order == o && Active(s.db.payments[q]);
      step := JoinPayment(c, q);
    } else {
      var q := AboveAll(s.db.payments.Keys);
      step := OpenPayment(c, q, f.attempt);
    }
    OneStepFurther(facts, steps, before, step, f);
    more := before + [step];
  }

  /** A request that leads to the attempt can get there. */
  lemma ReachAttempt(
    facts: Facts, steps: seq<Step>, before: seq<Step>, f: Fact, c: CheckoutId)
    returns (more: seq<Step>)
    requires SameVerdict(facts, steps, before, f) && AttemptFree(facts, Run(facts, steps + before).value, f.attempt)
    requires var s := Run(facts, steps + before).value; c in s.checkouts && Leads(s.db, s.checkouts[c], f.attempt)
    ensures SameVerdict(facts, steps, more, f) && AttemptFree(facts, Run(facts, steps + more).value, f.attempt)
    ensures var s := Run(facts, steps + more).value; c in s.checkouts && s.checkouts[c] == Prepared(f.attempt)
  {
    more := before;
    if Run(facts, steps + more).value.checkouts[c].Missing? { more := LeaveMissing(facts, steps, more, f, c); }
    if !Run(facts, steps + more).value.checkouts[c].Prepared? {
      OneStepFurther(facts, steps, more, FindKey(c, Some(f.attempt)), f);
      more := more + [FindKey(c, Some(f.attempt))];
    }
  }

  /** A resumable attempt can be brought to a checkout that waits for the provider. */
  lemma ResumeAttempt(facts: Facts, steps: seq<Step>, f: Fact) returns (more: seq<Step>, c: CheckoutId)
    requires Run(facts, steps).Some? && Joined(Run(facts, steps).value.db, f)
    requires Resumable(Run(facts, steps).value, f.attempt)
    ensures SameVerdict(facts, steps, more, f) && AttemptFree(facts, Run(facts, steps + more).value, f.attempt)
    ensures var s := Run(facts, steps + more).value; c in s.checkouts && s.checkouts[c] == Prepared(f.attempt)
  {
    more := FreeTheAttempt(facts, steps, f);
    var s := Run(facts, steps + more).value;
    if InFlight(s, f.attempt) {
      c :| c in s.checkouts && Leads(s.db, s.checkouts[c], f.attempt);
    } else {
      c := AboveAll(s.checkouts.Keys);
      var start := StartCheckout(c, f.order, s.db.attempts[f.attempt].key);
      OneStepFurther(facts, steps, more, start, f);
      more := more + [start];
    }
    more := ReachAttempt(facts, steps, more, f, c);
  }

  /** The exact condition, for every reachable state: a no-op or conflict is final, over all
      continuations, if and only if the event names no session, or the attempt already has one, or it
      was closed without one, or no request can still bring one. */
  lemma FinalIff(facts: Facts, steps: seq<Step>, f: Fact)
    requires Run(facts, steps).Some? && Joined(Run(facts, steps).value.db, f)
    requires var v := VerdictOf(Run(facts, steps).value.db, f); v.Ignore? || v.StateConflict?
    ensures var s := Run(facts, steps).value;
            var row := s.db.attempts[f.attempt];
            (forall more | Run(facts, steps + more).Some? ::
               VerdictOf(Run(facts, steps + more).value.db, f) == VerdictOf(s.db, f))
            <==> f.session.None? || row.session.Some? || !row.status.Created? || !Resumable(s, f.attempt)
  {
    var s := Run(facts, steps).value;
    var row := s.db.attempts[f.attempt];
    if f.session.None? || row.session.Some? || !row.status.Created? || !Resumable(s, f.attempt) {
      forall more | Run(facts, steps + more).Some?
        ensures VerdictOf(Run(facts, steps + more).value.db, f) == VerdictOf(s.db, f)
      {
        StaysFinal(facts, steps, more, f);
      }
    } else {
      var more := VerdictLost(facts, steps, f);
    }
  }

  lemma VerdictLost(facts: Facts, steps: seq<Step>, f: Fact) returns (more: seq<Step>)
    requires Run(facts, steps).Some? && Joined(Run(facts, steps).value.db, f)
    requires var v := VerdictOf(Run(facts, steps).value.db, f); v.Ignore? || v.StateConflict?
    requires var s := Run(facts, steps).value;
             f.session.Some? && s.db.attempts[f.attempt].status.Created? && Resumable(s, f.attempt)
    ensures Run(facts, steps + more).Some?
    ensures VerdictOf(Run(facts, steps + more).value.db, f) != VerdictOf(Run(facts, steps).value.db, f)
  {
    var c;
    more, c := ResumeAttempt(facts, steps, f);
    var last := AnotherSessionFits(facts, steps + more, c, f);
    assert (steps + more) + last == steps + (more + last);
    more := more + last;
  }

  lemma StaysFinal(facts: Facts, steps: seq<Step>, more: seq<Step>, f: Fact)
    requires Run(facts, steps).Some? && Run(facts, steps + more).Some? && Joined(Run(facts, steps).value.db, f)
    requires var v := VerdictOf(Run(facts, steps).value.db, f); v.Ignore? || v.StateConflict?
    requires var s := Run(facts, steps).value;
             var row := s.db.attempts[f.attempt];
             f.session.None? || row.session.Some? || !row.status.Created? || !Resumable(s, f.attempt)
    ensures VerdictOf(Run(facts, steps + more).value.db, f) == VerdictOf(Run(facts, steps).value.db, f)
  {
    var s := Run(facts, steps).value;
    if f.session.None? || s.db.attempts[f.attempt].session.Some? {
      FinalWhenSessionKnown(facts, steps, more, f);
    } else {
      if !s.db.attempts[f.attempt].status.Created? {
        SessionFixed(facts, steps, more, f.attempt);
      } else {
        SessionFixedOutside(facts, steps, more, f.attempt);
      }
      FinalUnlessForeign(facts, steps, more, f);
    }
  }
}
