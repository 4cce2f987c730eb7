/** A processing transaction is a run of ledger steps, so what holds over every run holds of it. */
module LedgerRefinement {
  import opened Common
  import opened Transition
  import opened Ledger
  import opened LedgerSteps
  import Inbox
  import LedgerProofs
  import LedgerRuns
  import LedgerStore

  lemma Extend(facts: Facts, steps: seq<Step>, step: Step, s: State) returns (longer: seq<Step>)
    requires Run(facts, steps) == Some(s) && Enabled(facts, s, step)
    ensures Run(facts, longer) == Some(Next(facts, s, step)) && steps <= longer
  {
    longer := steps + [step];
    assert longer[..|steps|] == steps;
  }

  lemma RunOneMore(facts: Facts, steps: seq<Step>, step: Step)
    requires Run(facts, steps).Some? && Enabled(facts, Run(facts, steps).value, step)
    ensures Run(facts, steps + [step]) == Some(Next(facts, Run(facts, steps).value, step))
  {
    assert (steps + [step])[..|steps|] == steps;
  }

  /** Nobody holds the event or one of its three rows. */
  predicate Unlocked(facts: Facts, s: State, e: EventId) {
    var f := FactOf(facts, e);
    && !HoldsEvent(s, e)
    && (f.Reports? ==>
        AttemptFree(facts, s, f.attempt) && PaymentFree(facts, s, f.payment) && OrderFree(facts, s, f.order))
  }

  function Snapshot(db: Db, f: Fact, e: EventId): Tx
    requires Joined(db, f)
  {
    Tx(e, Some(db.attempts[f.attempt]), Some(db.payments[f.payment]), Some(db.orders[f.order]), None, 0)
  }

  /** The transaction takes its locks, in order. */
  lemma LockAll(facts: Facts, steps: seq<Step>, s: State, t: TxId, e: EventId) returns (longer: seq<Step>)
    requires Run(facts, steps) == Some(s) && t !in s.txs && e !in s.processed
    requires Unlocked(facts, s, e) && Joined(s.db, FactOf(facts, e))
    ensures Run(facts, longer) == Some(WithTx(s, t, Snapshot(s.db, FactOf(facts, e), e)))
  {
    var full := Snapshot(s.db, FactOf(facts, e), e);
    var t0, t1 := Tx(e, None, None, None, None, 0), Tx(e, full.attempt, None, None, None, 0);
    var t2 := t1.(payment := full.payment);
    longer := Extend(facts, steps, Begin(t, e), s);
    longer := LockFirst(facts, longer, s, t, e, t0, t1);
    longer := LockRest(facts, longer, s, t, e, t1, t2, full);
  }

  lemma LockFirst(
    facts: Facts, steps: seq<Step>, s: State, t: TxId, e: EventId, t0: Tx, t1: Tx)
    returns (longer: seq<Step>)
    requires Run(facts, steps) == Some(WithTx(s, t, t0)) && t !in s.txs
    requires Unlocked(facts, s, e) && Joined(s.db, FactOf(facts, e))
    requires t0 == Tx(e, None, None, None, None, 0)
    requires t1 == t0.(attempt := Some(s.db.attempts[FactOf(facts, e).attempt]))
    ensures Run(facts, longer) == Some(WithTx(s, t, t1))
  {
    longer := Restep(facts, steps, LockAttempt(t), s, t, t0, t1);
  }

  lemma LockRest(facts: Facts, steps: seq<Step>, s: State, t: TxId, e: EventId, t1: Tx, t2: Tx, full: Tx)
    returns (longer: seq<Step>)
    requires Run(facts, steps) == Some(WithTx(s, t, t1)) && t !in s.txs
    requires Unlocked(facts, s, e) && Joined(s.db, FactOf(facts, e)) && full == Snapshot(s.db, FactOf(facts, e), e)
    requires t1 == Tx(e, full.attempt, None, None, None, 0) && t2 == t1.(payment := full.payment)
    ensures Run(facts, longer) == Some(WithTx(s, t, full))
  {
    longer := Restep(facts, steps, LockPayment(t), s, t, t1, t2);
    longer := Restep(facts, longer, LockOrder(t), s, t, t2, full);
  }

  /** One step of a transaction that changes nothing but its own record. */
  lemma Restep(facts: Facts, steps: seq<Step>, step: Step, s: State, t: TxId, x: Tx, y: Tx) returns (longer: seq<Step>)
    requires Run(facts, steps) == Some(WithTx(s, t, x)) && Enabled(facts, WithTx(s, t, x), step)
    requires Next(facts, WithTx(s, t, x), step) == WithTx(WithTx(s, t, x), t, y)
    ensures Run(facts, longer) == Some(WithTx(s, t, y))
  {
    longer := Extend(facts, steps, step, WithTx(s, t, x));
    assert s.txs[t := x][t := y] == s.txs[t := y];
  }

  /** A write that matches leaves no trace but the stage of its transaction. */
  lemma WriteIsSilent(facts: Facts, steps: seq<Step>, s: State, t: TxId)
    requires Run(facts, steps) == Some(s) && Enabled(facts, s, WriteNext(t))
    ensures Next(facts, s, WriteNext(t)) == WithTx(s, t, s.txs[t].(stage := s.txs[t].stage + 1))
  {
    LedgerRuns.InvHolds(facts, steps);
    LedgerRuns.WriteMatches(facts, s, t);
  }

  lemma WriteOne(facts: Facts, steps: seq<Step>, s: State, t: TxId, x: Tx) returns (longer: seq<Step>)
    requires Run(facts, steps) == Some(WithTx(s, t, x)) && x.plan.Some? && x.stage < 3
    ensures Run(facts, longer) == Some(WithTx(s, t, x.(stage := x.stage + 1)))
  {
    WriteIsSilent(facts, steps, WithTx(s, t, x), t);
    assert WithTx(s, t, x).txs[t] == x;
    longer := Restep(facts, steps, WriteNext(t), s, t, x, x.(stage := x.stage + 1));
  }

  /** It decides and executes its writes. */
  lemma WriteAll(facts: Facts, steps: seq<Step>, s: State, t: TxId, x: Tx, plan: Effect) returns (longer: seq<Step>)
    requires Run(facts, steps) == Some(WithTx(s, t, x)) && Loaded(x) && x.plan.None? && x.stage == 0
    requires var f := FactOf(facts, x.event);
             f.Reports? && var v := DecideEffect(f, x.payment.value, x.attempt.value);
             (v.Write? || v.Ignore?) && plan == PlanOf(v)
    ensures Run(facts, longer) == Some(WithTx(s, t, x.(plan := Some(plan), stage := 3)))
  {
    var y := x.(plan := Some(plan));
    longer := Restep(facts, steps, Resolve(t), s, t, x, y);
    longer := WriteOne(facts, longer, s, t, y);
    longer := WriteOne(facts, longer, s, t, y.(stage := 1));
    longer := WriteOne(facts, longer, s, t, y.(stage := 2));
  }

  /** From any reachable state in which nobody holds its rows, an event whose verdict is a write or
      a no-op can be processed to the end without touching anything else. */
  lemma CommitIsRun(facts: Facts, steps: seq<Step>, s: State, t: TxId, e: EventId) returns (longer: seq<Step>)
    requires Run(facts, steps) == Some(s) && t !in s.txs && e !in s.processed && Unlocked(facts, s, e)
    requires Joined(s.db, FactOf(facts, e))
    requires VerdictOf(s.db, FactOf(facts, e)).Write? || VerdictOf(s.db, FactOf(facts, e)).Ignore?
    ensures var f := FactOf(facts, e);
            var plan := PlanOf(VerdictOf(s.db, f));
            ApplyEffect(s.db, f, plan).Some?
            && Run(facts, longer) == Some(State(ApplyEffect(s.db, f, plan).value, s.processed + {e}, s.txs, s.checkouts,
                                                Logged(s.log, e, f, plan)))
  {
    var f := FactOf(facts, e);
    var plan := PlanOf(VerdictOf(s.db, f));
    var x := Snapshot(s.db, f, e);
    longer := LockAll(facts, steps, s, t, e);
    longer := WriteAll(facts, longer, s, t, x, plan);
    longer := Extend(facts, longer, Commit(t), WithTx(s, t, x.(plan := Some(plan), stage := 3)));
    assert s.txs[t := x.(plan := Some(plan), stage := 3)] - {t} == s.txs;
    LedgerRuns.InvHolds(facts, steps);
    if VerdictOf(s.db, f).Write? { LedgerProofs.EffectShapes(s.db, f); }
  }

  /** `Process` is such a run: what it makes of the tables is what the steps make of them, and an
      event is closed by the method exactly when the steps mark it processed. */
  lemma ProcessIsRun(facts: Facts, steps: seq<Step>, inbox: map<EventId, Inbox.Row>, t: TxId, e: EventId)
    returns (longer: seq<Step>)
    requires Run(facts, steps).Some?
    requires var s := Run(facts, steps).value; t !in s.txs && Unlocked(facts, s, e)
    requires e in inbox && (inbox[e].status.Processed? <==> e in Run(facts, steps).value.processed)
    ensures Run(facts, longer).Some?
    ensures var s, after := Run(facts, steps).value, Run(facts, longer).value;
            var end := LedgerStore.ProcessEvent(s.db, inbox, e, FactOf(facts, e));
            && after.db == end.db && after.txs == s.txs && after.checkouts == s.checkouts
            && (end.inbox[e].status.Processed? <==> e in after.processed)
            && (end.result.Done? ==> after.processed == s.processed + {e})
            && (!end.result.Done? ==> after == s)
  {
    longer := steps;
    var s, f := Run(facts, steps).value, FactOf(facts, e);
    if LedgerStore.ProcessEvent(s.db, inbox, e, f).result.Done? {
      longer := CommitIsRun(facts, steps, s, t, e);
    }
  }
}
