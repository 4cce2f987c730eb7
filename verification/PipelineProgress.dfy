/** No accepted event gets stuck: from every state of every run, whatever crashed or expired, it can still
    be processed. */
module PipelineProgress {
  import opened Common
  import opened Pipeline
  import opened PipelineProofs
  import PipelineTheorems
  import Broker
  import Inbox
  import Outbox

  // ---- Leases that ran out ---------------------------------------------------------------------------

  /** A leased row was past its backoff when it was leased. */
  ghost predicate LeasesFit(t: Outbox.Table, now: int) {
    forall e :: e in t && t[e].status.Publishing? ==> t[e].nextAttempt <= now && t[e].lock.Some?
  }

  /** The event of a message is pending, processed or failed. */
  ghost predicate EventsFit(inbox: map<EventId, Inbox.Row>, t: Outbox.Table) {
    forall e :: e in t ==>
      e in inbox && (inbox[e].status.Pending? || inbox[e].status.Processed? || inbox[e].status.Failed?)
  }

  ghost predicate RowsFit(s: State) { LeasesFit(s.outbox, s.now) && EventsFit(s.inbox, s.outbox) }

  lemma StepKeepsLeases(c: Config, s: State, step: Step)
    requires LeasesFit(s.outbox, s.now) && Enabled(c, s, step)
    ensures LeasesFit(Next(c, s, step).outbox, Next(c, s, step).now)
  {
  }

  lemma StepKeepsEvents(c: Config, s: State, step: Step)
    requires EventsFit(s.inbox, s.outbox) && Enabled(c, s, step)
    ensures EventsFit(Next(c, s, step).inbox, Next(c, s, step).outbox)
  {
  }

  lemma {:induction false} FitHolds(c: Config, steps: seq<Step>)
    requires Run(c, steps).Some?
    ensures RowsFit(Run(c, steps).value)
  {
    if steps != [] {
      FitHolds(c, steps[..|steps| - 1]);
      StepKeepsLeases(c, Run(c, steps[..|steps| - 1]).value, steps[|steps| - 1]);
      StepKeepsEvents(c, Run(c, steps[..|steps| - 1]).value, steps[|steps| - 1]);
    }
  }

  /** In every reachable state a row is open to any relay that has begun a cycle exactly when it is
      pending past its backoff, or its lease has run out: the message of a relay that died is never
      stuck. */
  lemma ClaimableIff(c: Config, steps: seq<Step>, o: Owner, e: EventId)
    requires Run(c, steps).Some? && c.batchSize > 0
    requires RelayOf(Run(c, steps).value, o).Begun? && e in Run(c, steps).value.outbox
    ensures var s := Run(c, steps).value;
            var row := s.outbox[e];
            Enabled(c, s, Lease(o, [e]))
            <==> || (row.status.Pending? && row.nextAttempt <= s.now)
                 || (row.status.Publishing? && row.lock.Some? && row.lock.value.until <= s.now)
  {
    FitHolds(c, steps);
    var s := Run(c, steps).value;
    assert [e][0] == e;
    if Outbox.Due(s.outbox[e], s.now) {
      assert forall id | id in [e] :: id == e;
    } else {
      assert e in [e];
    }
  }

  // ---- The way to a processed event --------------------------------------------------------------------

  /** Steps of our own components and of time: no message arrives that the relay did not publish, and an
      operator replays only what had failed. */
  predicate Own(step: Step, mayReplay: bool) { !step.Arrive? && (step.Replay? ==> mayReplay) }

  ghost predicate Reaches(c: Config, steps: seq<Step>, more: seq<Step>, mayReplay: bool) {
    Run(c, steps + more).Some? && forall x | x in more :: Own(x, mayReplay)
  }

  /** The state that `steps` and then `more` lead to. */
  ghost function At(c: Config, steps: seq<Step>, more: seq<Step>): State
    requires Run(c, steps + more).Some?
  {
    Run(c, steps + more).value
  }

  lemma Then(c: Config, steps: seq<Step>, more: seq<Step>, step: Step, mayReplay: bool) returns (longer: seq<Step>)
    requires Reaches(c, steps, more, mayReplay) && Own(step, mayReplay) && Enabled(c, At(c, steps, more), step)
    ensures Reaches(c, steps, longer, mayReplay)
    ensures At(c, steps, longer) == Next(c, At(c, steps, more), step)
  {
    longer := more + [step];
    assert steps + longer == steps + more + [step];
    assert (steps + longer)[..|steps + more|] == steps + more;
  }

  lemma FreshTag(b: Broker.State) returns (tag: Broker.Tag)
    ensures tag !in b.unacked
  {
    tag := Above(b.unacked.Keys);
  }

  lemma {:induction false} Above(ns: set<nat>) returns (n: nat)
    ensures n !in ns && forall m | m in ns :: m < n
    decreases |ns|
  {
    n := 0;
    if m :| m in ns {
      n := Above(ns - {m});
      n := if m < n then n else m + 1;
      assert ns == (ns - {m}) + {m};
    }
  }

  /** From the main queue: delivered and processed. */
  lemma FromQueue(c: Config, steps: seq<Step>, more: seq<Step>, e: EventId, r: bool) returns (longer: seq<Step>)
    requires Reaches(c, steps, more, r) && e in At(c, steps, more).broker.main && e in At(c, steps, more).inbox
    ensures Reaches(c, steps, longer, r)
    ensures e in At(c, steps, longer).inbox && At(c, steps, longer).inbox[e].status.Processed?
  {
    var tag := FreshTag(At(c, steps, more).broker);
    longer := Then(c, steps, more, Deliver(tag, e), r);
    longer := Then(c, steps, longer, Commit(tag), r);
  }

  /** From wherever a live copy is: back to the main queue. */
  lemma FromLiveCopy(c: Config, steps: seq<Step>, more: seq<Step>, e: EventId, r: bool) returns (longer: seq<Step>)
    requires Reaches(c, steps, more, r) && Broker.Live(At(c, steps, more).broker, e) && e in At(c, steps, more).inbox
    ensures Reaches(c, steps, longer, r)
    ensures e in At(c, steps, longer).inbox && At(c, steps, longer).inbox[e].status.Processed?
  {
    var b := At(c, steps, more).broker;
    longer := more;
    if e !in b.main {
      if w :| w in b.waiting && w.event == e {
        longer := Then(c, steps, more, TierExpires(w), r);
      } else {
        var tag :| tag in b.unacked && b.unacked[tag].event == e && Broker.LivePhase(b.unacked[tag].phase);
        longer := Then(c, steps, more, Requeue(tag), r);
      }
    }
    longer := FromQueue(c, steps, longer, e, r);
  }

  /** When the row can be claimed at the latest. */
  function ReadyAt(row: Outbox.Row): int {
    if row.lock.Some? && row.lock.value.until > row.nextAttempt then row.lock.value.until else row.nextAttempt
  }

  /** A relay that starts a cycle when the row is ready: whatever it did before, it crashed. */
  lemma BeginWhenReady(c: Config, steps: seq<Step>, more: seq<Step>, e: EventId, o: Owner, r: bool)
    returns (longer: seq<Step>)
    requires Reaches(c, steps, more, r) && e in At(c, steps, more).outbox
    ensures Reaches(c, steps, longer, r)
    ensures var s, after := At(c, steps, more), At(c, steps, longer);
            && after.outbox == s.outbox && after.inbox == s.inbox && RelayOf(after, o).Begun?
            && ReadyAt(s.outbox[e]) <= after.now
  {
    var s := At(c, steps, more);
    var wait := ReadyAt(s.outbox[e]) - s.now;
    longer := Then(c, steps, more, Tick(if wait > 0 then wait else 0), r);
    if !RelayOf(s, o).Idle? { longer := Then(c, steps, longer, StopCycle(o), r); }
    longer := Then(c, steps, longer, BeginCycle(o), r);
  }

  /** From the outbox: leased, published and in the main queue. */
  lemma FromOutbox(c: Config, steps: seq<Step>, more: seq<Step>, e: EventId, r: bool) returns (longer: seq<Step>)
    requires Reaches(c, steps, more, r) && c.batchSize > 0
    requires var s := At(c, steps, more);
             && e in s.outbox && e in s.inbox && (s.outbox[e].status.Pending? || s.outbox[e].status.Publishing?)
    ensures Reaches(c, steps, longer, r)
    ensures e in At(c, steps, longer).inbox && At(c, steps, longer).inbox[e].status.Processed?
  {
    longer := BeginWhenReady(c, steps, more, e, 0, r);
    ClaimableIff(c, steps + longer, 0, e);
    FitHolds(c, steps + more);
    longer := Then(c, steps, longer, Lease(0, [e]), r);
    longer := Then(c, steps, longer, Accept(0), r);
    longer := FromQueue(c, steps, longer, e, r);
  }

  /** In every state of every run each accepted event is processed or can still be, by a continuation in
      which nothing arrives that was not published; an operator is needed only if its processing or
      its publication had failed. */
  lemma EventCanStillBeProcessed(c: Config, steps: seq<Step>, e: EventId) returns (more: seq<Step>)
    requires PipelineTheorems.Configured(c) && Run(c, steps).Some? && e in Run(c, steps).value.outbox
    ensures var s := Run(c, steps).value;
            && e in s.inbox
            && Reaches(c, steps, more, s.inbox[e].status.Failed? || s.outbox[e].status.Failed?)
            && e in At(c, steps, more).inbox && At(c, steps, more).inbox[e].status.Processed?
  {
    FitHolds(c, steps);
    PipelineTheorems.InvHolds(c, steps);
    var s := Run(c, steps).value;
    var r := s.inbox[e].status.Failed? || s.outbox[e].status.Failed?;
    assert steps + [] == steps;
    more := [];
    if s.inbox[e].status.Processed? { return; }
    if s.outbox[e].status.Pending? || s.outbox[e].status.Publishing? {
      more := FromOutbox(c, steps, [], e, r);
    } else if r {
      more := Then(c, steps, [], Replay(e), r);
      more := FromOutbox(c, steps, more, e, r);
    } else {
      more := FromLiveCopy(c, steps, [], e, r);
    }
  }
}
