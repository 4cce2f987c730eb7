/** When the verdict on an event can still change, exactly. */
module LedgerVerdicts {
  import opened Common
  import opened Transition
  import opened Ledger
  import opened LedgerSteps
  import opened LedgerProofs
  import opened LedgerRuns
  import opened LedgerTheorems

  // ---- Sessions: the one way a final verdict changes -------------------------------------------------

  /** The attempt has a session, and the event names another one. */
  predicate Foreign(f: Fact, a: AttemptRow)
    requires f.Reports?
  {
    a.session.Some? && f.session.Some? && a.session != f.session
  }

  lemma NoOpOfStored(db: Db, f: Fact)
    requires Joined(db, f)
    ensures var p, a := db.payments[f.payment], db.attempts[f.attempt];
            var same := p.provider == STRIPE && f.amount == p.amount && f.currency == p.currency && !Foreign(f, a);
            && (VerdictOf(db, f).Ignore? <==> same && Decide(f.outcome, p.status, a.status).decision.NoOp?)
            && (VerdictOf(db, f).StateConflict? <==> same && Decide(f.outcome, p.status, a.status).decision.Conflict?)
            && (VerdictOf(db, f).ReferenceMismatch?
                <==> (p.provider != STRIPE || (f.amount == p.amount && f.currency == p.currency && Foreign(f, a))))
  {
  }

  /** A no-op stays one and a conflict stays one, over any continuation of any run, exactly as long
      as the attempt has not been given a session other than the one the event names. After that
      both are reference mismatches. */
  lemma FinalUnlessForeign(facts: Facts, steps: seq<Step>, more: seq<Step>, f: Fact)
    requires Run(facts, steps).Some? && Run(facts, steps + more).Some?
    requires Joined(Run(facts, steps).value.db, f)
    requires var v := VerdictOf(Run(facts, steps).value.db, f); v.Ignore? || v.StateConflict?
    ensures Joined(Run(facts, steps + more).value.db, f)
    ensures var v, later := VerdictOf(Run(facts, steps).value.db, f), Run(facts, steps + more).value.db;
            && (VerdictOf(later, f) == v <==> !Foreign(f, later.attempts[f.attempt]))
            && (VerdictOf(later, f).ReferenceMismatch? <==> Foreign(f, later.attempts[f.attempt]))
  {
    VerdictIsFinal(facts, steps, more, f);
    InvHolds(facts, steps + more);
    NoOpOfStored(Run(facts, steps).value.db, f);
    NoOpOfStored(Run(facts, steps + more).value.db, f);
  }

  /** What can be checked beforehand: an event without a session, or of an attempt that already has
      one, keeps its no-op or conflict for good. */
  lemma FinalWhenSessionKnown(facts: Facts, steps: seq<Step>, more: seq<Step>, f: Fact)
    requires Run(facts, steps).Some? && Run(facts, steps + more).Some?
    requires Joined(Run(facts, steps).value.db, f)
    requires var v := VerdictOf(Run(facts, steps).value.db, f); v.Ignore? || v.StateConflict?
    requires f.session.None? || Run(facts, steps).value.db.attempts[f.attempt].session.Some?
    ensures VerdictOf(Run(facts, steps + more).value.db, f) == VerdictOf(Run(facts, steps).value.db, f)
  {
    FinalUnlessForeign(facts, steps, more, f);
    VerdictIsFinal(facts, steps, more, f);
    NoOpOfStored(Run(facts, steps).value.db, f);
  }

  /** Attaching this session to the event's attempt. */
  predicate Attaches(s: State, step: Step, f: Fact)
    requires f.Reports?
  {
    && step.SaveSession? && step.checkout in s.checkouts && s.checkouts[step.checkout] == Prepared(f.attempt)
    && f.session.Some? && f.session.value != step.session
  }

  lemma SessionKept(facts: Facts, s: State, step: Step, a: AttemptId)
    requires Inv(facts, s) && Enabled(facts, s, step) && a in s.db.attempts
    requires !(step.SaveSession? && s.checkouts[step.checkout] == Prepared(a))
    ensures a in Next(facts, s, step).db.attempts
    ensures Next(facts, s, step).db.attempts[a].session == s.db.attempts[a].session
  {
    if step.Commit? { CommitKeepsSessions(facts, s, step.tx, a); } else { OtherRowsKept(facts, s, step, a); }
  }

  lemma CommitKeepsSessions(facts: Facts, s: State, t: TxId, a: AttemptId)
    requires Inv(facts, s) && Enabled(facts, s, Commit(t)) && a in s.db.attempts
    ensures a in Next(facts, s, Commit(t)).db.attempts
    ensures Next(facts, s, Commit(t)).db.attempts[a].session == s.db.attempts[a].session
  {
    CommitResult(facts, s, t);
    var f := FactOf(facts, s.txs[t].event);
    if VerdictOf(s.db, f).Write? { WrittenKeepsSession(s.db, f, VerdictOf(s.db, f).effect, a); }
  }

  lemma WrittenKeepsSession(db: Db, f: Fact, e: Effect, a: AttemptId)
    requires Joined(db, f) && a in db.attempts
    ensures a in Written(db, f, e).attempts && Written(db, f, e).attempts[a].session == db.attempts[a].session
  {
  }

  lemma OtherRowsKept(facts: Facts, s: State, step: Step, a: AttemptId)
    requires Enabled(facts, s, step) && a in s.db.attempts && !step.Commit?
    requires !(step.SaveSession? && s.checkouts[step.checkout] == Prepared(a))
    ensures a in Next(facts, s, step).db.attempts && Next(facts, s, step).db.attempts[a] == s.db.attempts[a]
  {
  }

  /** Exactly one step takes a no-op or a conflict away: attaching another session to the attempt
      of the event. */
  lemma FinalKeptIff(facts: Facts, steps: seq<Step>, step: Step, f: Fact)
    requires Run(facts, steps).Some? && Enabled(facts, Run(facts, steps).value, step)
    requires Joined(Run(facts, steps).value.db, f)
    requires var v := VerdictOf(Run(facts, steps).value.db, f); v.Ignore? || v.StateConflict?
    ensures var s := Run(facts, steps).value;
            VerdictOf(Next(facts, s, step).db, f) == VerdictOf(s.db, f) <==> !Attaches(s, step, f)
  {
    InvHolds(facts, steps);
    var s := Run(facts, steps).value;
    assert (steps + [step])[..|steps|] == steps;
    FinalUnlessForeign(facts, steps, [step], f);
    NoOpOfStored(s.db, f);
    if !(step.SaveSession? && s.checkouts[step.checkout] == Prepared(f.attempt)) {
      SessionKept(facts, s, step, f.attempt);
    }
  }

  lemma {:induction false} SessionFixed(facts: Facts, steps: seq<Step>, more: seq<Step>, a: AttemptId)
    requires Run(facts, steps).Some? && Run(facts, steps + more).Some?
    requires a in Run(facts, steps).value.db.attempts && !Run(facts, steps).value.db.attempts[a].status.Created?
    ensures var now, later := Run(facts, steps).value.db.attempts, Run(facts, steps + more).value.db.attempts;
            a in later && !later[a].status.Created? && later[a].session == now[a].session
  {
    if more == [] {
      assert steps + more == steps;
    } else {
      var longer, init := steps + more, more[..|more| - 1];
      assert longer[..|longer| - 1] == steps + init;
      SessionFixed(facts, steps, init, a);
      InvHolds(facts, steps + init);
      SessionStays(facts, Run(facts, steps + init).value, longer[|longer| - 1], a);
    }
  }

  lemma SessionStays(facts: Facts, s: State, step: Step, a: AttemptId)
    requires Inv(facts, s) && Enabled(facts, s, step) && a in s.db.attempts && !s.db.attempts[a].status.Created?
    ensures var after := Next(facts, s, step).db.attempts;
            a in after && !after[a].status.Created? && after[a].session == s.db.attempts[a].session
  {
    SessionKept(facts, s, step, a);
    StepEvolves(facts, s, step);
    assert AttemptEvolves(s.db.payments, s.db.attempts[a], Next(facts, s, step).db.attempts[a]);
  }

  lemma {:induction false} AboveAll(ns: set<nat>) returns (n: nat)
    ensures forall m | m in ns :: m < n
    decreases |ns|
  {
    n := 0;
    if m :| m in ns {
      n := AboveAll(ns - {m});
      n := if m < n then n else m + 1;
      assert ns == (ns - {m}) + {m};
    }
  }

  /** A session nobody has, other than the given one. */
  lemma UnusedSession(ts: AttemptTable, other: SessionId) returns (session: SessionId)
    ensures session != other && forall x | x in ts :: ts[x].session != Some(session)
  {
    var used := set x | x in ts && ts[x].session.Some? :: ts[x].session.value;
    session := AboveAll(used + {other});
    assert other in used + {other};
    forall x | x in ts ensures ts[x].session != Some(session) {
      if ts[x].session.Some? { assert ts[x].session.value in used + {other}; }
    }
  }

  lemma AnotherSessionFits(facts: Facts, steps: seq<Step>, c: CheckoutId, f: Fact) returns (more: seq<Step>)
    requires Run(facts, steps).Some? && Joined(Run(facts, steps).value.db, f)
    requires var v := VerdictOf(Run(facts, steps).value.db, f); v.Ignore? || v.StateConflict?
    requires var s := Run(facts, steps).value;
             && c in s.checkouts && s.checkouts[c] == Prepared(f.attempt) && AttemptFree(facts, s, f.attempt)
             && f.session.Some? && s.db.attempts[f.attempt].status.Created?
    ensures Run(facts, steps + more).Some?
    ensures VerdictOf(Run(facts, steps + more).value.db, f) != VerdictOf(Run(facts, steps).value.db, f)
  {
    var s := Run(facts, steps).value;
    var session := UnusedSession(s.db.attempts, f.session.value);
    var step := SaveSession(c, session);
    more := [step];
    assert (steps + more)[..|steps|] == steps;
    assert Run(facts, steps + more) == Some(Next(facts, s, step));
    FinalKeptIff(facts, steps, step, f);
  }

  // ---- References: mismatches are final once the attempt is stored ---------------------------------------

  /** Once the attempt exists a failed correlation is final. */
  lemma {:induction false} MismatchIsFinal(facts: Facts, steps: seq<Step>, more: seq<Step>, f: Fact)
    requires Run(facts, steps).Some? && Run(facts, steps + more).Some?
    requires f.Reports? && f.attempt in Run(facts, steps).value.db.attempts
    requires !Joined(Run(facts, steps).value.db, f)
    ensures f.attempt in Run(facts, steps + more).value.db.attempts
    ensures !Joined(Run(facts, steps + more).value.db, f)
  {
    if more == [] {
      assert steps + more == steps;
    } else {
      var longer := steps + more;
      var init := more[..|more| - 1];
      assert longer[..|longer| - 1] == steps + init;
      MismatchIsFinal(facts, steps, init, f);
      InvHolds(facts, steps + init);
      var s := Run(facts, steps + init).value;
      StepEvolves(facts, s, longer[|longer| - 1]);
      StaysApart(s.db, Next(facts, s, longer[|longer| - 1]).db, f);
    }
  }

  lemma StaysApart(db: Db, after: Db, f: Fact)
    requires DbOk(db) && Evolves(db, after) && f.Reports? && f.attempt in db.attempts && !Joined(db, f)
    ensures f.attempt in after.attempts && !Joined(after, f)
  {
    var p := db.attempts[f.attempt].payment;
    assert AttemptEvolves(db.payments, db.attempts[f.attempt], after.attempts[f.attempt]);
    assert PaymentEvolves(db.payments[p], after.payments[p]);
  }

  /** An event that belongs to its rows at some point is refused as belonging to none before, exactly
      while its attempt is not stored. */
  lemma EarlyIffUnstored(facts: Facts, steps: seq<Step>, more: seq<Step>, f: Fact)
    requires Run(facts, steps).Some? && Run(facts, steps + more).Some?
    requires Joined(Run(facts, steps + more).value.db, f)
    ensures !Joined(Run(facts, steps).value.db, f) <==> f.attempt !in Run(facts, steps).value.db.attempts
  {
    if f.attempt in Run(facts, steps).value.db.attempts && !Joined(Run(facts, steps).value.db, f) {
      MismatchIsFinal(facts, steps, more, f);
    }
  }

  /** The attempt of every checkout that may ask the provider is stored. */
  ghost predicate PreparedStored(s: State) {
    forall c :: c in s.checkouts && s.checkouts[c].Prepared? ==> s.checkouts[c].attempt in s.db.attempts
  }

  lemma {:induction false} PreparedHolds(facts: Facts, steps: seq<Step>)
    requires Run(facts, steps).Some?
    ensures PreparedStored(Run(facts, steps).value)
  {
    if steps != [] {
      var init := steps[..|steps| - 1];
      PreparedHolds(facts, init);
      InvHolds(facts, init);
      PreparedKept(facts, Run(facts, init).value, steps[|steps| - 1]);
    }
  }

  lemma PreparedKept(facts: Facts, s: State, step: Step)
    requires Inv(facts, s) && Enabled(facts, s, step) && PreparedStored(s)
    ensures PreparedStored(Next(facts, s, step))
  {
    StepEvolves(facts, s, step);
    var after := Next(facts, s, step);
    forall c | c in after.checkouts && after.checkouts[c].Prepared?
      ensures after.checkouts[c].attempt in after.db.attempts
    {
      if c in s.checkouts && after.checkouts[c] == s.checkouts[c] { assert s.checkouts[c].attempt in s.db.attempts; }
    }
  }

  /** The provider is asked only for stored rows, so what it reports about a checkout belongs to
      them from the first moment it can be reported, and for good: no genuine event is early. */
  lemma GenuineEventIsNeverEarly(facts: Facts, steps: seq<Step>, more: seq<Step>, c: CheckoutId, f: Fact)
    requires Run(facts, steps).Some? && Run(facts, steps + more).Some?
    requires c in Run(facts, steps).value.checkouts && f.Reports?
    requires Run(facts, steps).value.checkouts[c] == Prepared(f.attempt)
    ensures var db := Run(facts, steps).value.db;
            && f.attempt in db.attempts && db.attempts[f.attempt].payment in db.payments
            && (f.payment == db.attempts[f.attempt].payment && f.order == db.payments[f.payment].order ==>
                Joined(db, f) && Joined(Run(facts, steps + more).value.db, f))
  {
    PreparedHolds(facts, steps);
    InvHolds(facts, steps);
    var db := Run(facts, steps).value.db;
    if f.payment == db.attempts[f.attempt].payment && f.order == db.payments[f.payment].order {
      VerdictIsFinal(facts, steps, more, f);
    }
  }

  // ---- What the processed flag means ------------------------------------------------------------------------

  ghost predicate ProcessedSpent(facts: Facts, s: State) {
    forall e :: e in s.processed ==> Spent(s.db, FactOf(facts, e))
  }

  /** No event is marked processed whose effect its aggregate has not absorbed. */
  lemma {:induction false} ProcessedIsSpent(facts: Facts, steps: seq<Step>)
    requires Run(facts, steps).Some?
    ensures ProcessedSpent(facts, Run(facts, steps).value)
  {
    if steps != [] {
      var init := steps[..|steps| - 1];
      ProcessedIsSpent(facts, init);
      InvHolds(facts, init);
      ProcessedKept(facts, Run(facts, init).value, steps[|steps| - 1]);
    }
  }

  lemma ProcessedKept(facts: Facts, s: State, step: Step)
    requires Inv(facts, s) && Enabled(facts, s, step) && ProcessedSpent(facts, s)
    ensures ProcessedSpent(facts, Next(facts, s, step))
  {
    StepEvolves(facts, s, step);
    var after := Next(facts, s, step);
    forall e | e in after.processed ensures Spent(after.db, FactOf(facts, e)) {
      if e in s.processed {
        SpentEvolves(s.db, after.db, FactOf(facts, e));
      } else {
        CommitSpendsEvent(facts, s, step.tx);
      }
    }
  }

  lemma CommitSpendsEvent(facts: Facts, s: State, t: TxId)
    requires Inv(facts, s) && Enabled(facts, s, Commit(t))
    ensures Spent(Next(facts, s, Commit(t)).db, FactOf(facts, s.txs[t].event))
  {
    CommitResult(facts, s, t);
    var f := FactOf(facts, s.txs[t].event);
    assert TxOk(facts, s.db, s.txs[t]);
    JoinedWhenLoaded(facts, s.db, s.txs[t]);
    if VerdictOf(s.db, f).Write? { CommitSpends(s.db, f); } else { NoOpOfStored(s.db, f); }
  }
}
