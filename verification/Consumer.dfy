/** The consumer: handles one delivery, settles it with the broker, and gives every
    unacknowledged delivery back when its session ends. */
module Consumer {
  import opened Common
  import Inbox
  import Broker
  import Pipeline
  import PipelineProofs
  import PipelineTheorems
  import Store

  /** How applying one message ends: the transaction commits, or fails with a cause that is
      terminal or not and is recorded, or not even the failure could be recorded. */
  datatype Try = Commits | Rejects(terminal: bool) | Unrecorded

  /** How a republication ends. `Unconfirmed` means the broker took the copy but the confirm
      never came. */
  datatype Copying = Lost | Unconfirmed | Confirmed

  datatype Script = Script(tried: Try, copying: Copying, acked: bool)

  datatype Handled = Handled(inbox: map<EventId, Inbox.Row>, broker: Broker.State, ok: bool)

  /** A message without an inbox row can never be applied: locking its row finds nothing, which
      is a terminal cause. An unreadable message is such a message. */
  function Tried(inbox: map<EventId, Inbox.Row>, e: EventId, tried: Try): Try {
    if tried.Commits? && e !in inbox then Rejects(true) else tried
  }

  /** The specification of handling one delivery. */
  function Handle(c: Pipeline.Config, inbox: map<EventId, Inbox.Row>, b: Broker.State, tag: Broker.Tag,
                  script: Script): Handled
    requires Pipeline.DeliveredAt(b, tag)
  {
    var e := b.unacked[tag].event;
    match Tried(inbox, e, script.tried)
    case Unrecorded => Handled(inbox, b, false)
    case Commits =>
      var decided := Broker.SetPhase(b, tag, Broker.Decided(Inbox.Done, 0));
      Handled(inbox[e := Inbox.MarkProcessed(inbox[e])],
              if script.acked then Broker.Ack(decided, tag) else decided, script.acked)
    case Rejects(terminal) =>
      var r := if e in inbox then Some(Inbox.RecordFailure(inbox[e], terminal, c.maxAttempts)) else None;
      var attempts := if r.Some? then r.value.attempts else 0;
      var d := Inbox.Classify(attempts, r.None? || r.value.status.Failed?);
      var decided := Broker.SetPhase(b, tag, Broker.Decided(d, attempts));
      var recorded := if r.Some? then inbox[e := r.value] else inbox;
      if script.copying.Lost? then Handled(recorded, decided, false)
      else
        var copied := Broker.Republish(c.tiers, decided, tag);
        if script.copying.Confirmed? && script.acked then Handled(recorded, Broker.Ack(copied, tag), true)
        else Handled(recorded, copied, false)
  }

  class RabbitMq {
    var main: multiset<EventId>
    var waiting: multiset<Broker.Waiting>
    var dlq: multiset<EventId>
    var unacked: map<Broker.Tag, Broker.Delivery>

    function View(): Broker.State
      reads this
    {
      Broker.State(main, waiting, dlq, unacked)
    }

    method Decide(tag: Broker.Tag, d: Inbox.Disposition, attempts: nat)
      requires tag in unacked
      modifies this`unacked
      ensures View() == Broker.SetPhase(old(View()), tag, Broker.Decided(d, attempts))
    {
      unacked := unacked[tag := unacked[tag].(phase := Broker.Decided(d, attempts))];
    }

    /** Copies the message to its tier or to the dead letter, and reports whether the broker
        confirmed the copy. */
    method Republish(tiers: seq<nat>, tag: Broker.Tag, copying: Copying) returns (ok: bool)
      requires tag in unacked && unacked[tag].phase.Decided? && !unacked[tag].phase.disposition.Done?
      modifies this`waiting, this`dlq, this`unacked
      ensures ok == copying.Confirmed?
      ensures View() == if copying.Lost? then old(View()) else Broker.Republish(tiers, old(View()), tag)
    {
      ok := copying.Confirmed?;
      if copying.Lost? { return; }
      var e, phase := unacked[tag].event, unacked[tag].phase;
      var tier := if phase.disposition.Retry? then Broker.TierFor(tiers, phase.attempts) else None;
      if tier.Some? {
        waiting := waiting + multiset{Broker.Waiting(tier.value, e)};
      } else {
        dlq := dlq + multiset{e};
      }
      unacked := unacked[tag := Broker.Delivery(e, Broker.Copied)];
    }

    method Ack(tag: Broker.Tag, reaches: bool) returns (ok: bool)
      requires tag in unacked && Broker.Acknowledgeable(unacked[tag])
      modifies this`unacked
      ensures ok == reaches
      ensures View() == if ok then Broker.Ack(old(View()), tag) else old(View())
    {
      ok := reaches;
      if ok { unacked := unacked - {tag}; }
    }

    /** The session ends: every unacknowledged delivery goes back to the queue, exactly once. */
    method CloseSession()
      modifies this`main, this`unacked
      ensures unacked == map[] && waiting == old(waiting) && dlq == old(dlq)
      ensures forall e :: main[e] == Copies(old(View()), e)
      ensures forall e | Broker.Live(old(View()), e) :: Broker.Live(View(), e)
    {
      ghost var before := View();
      while unacked != map[]
        invariant forall e :: Copies(View(), e) == Copies(before, e)
        invariant forall e | Broker.Live(before, e) :: Broker.Live(View(), e)
        decreases |unacked|
      {
        var tag :| tag in unacked;
        ghost var now := View();
        forall e ensures Copies(Broker.Requeue(now, tag), e) == Copies(now, e) { RequeueKeepsCopies(now, tag, e); }
        forall e | Broker.Live(now, e) ensures Broker.Live(Broker.Requeue(now, tag), e) {
          PipelineProofs.LiveRequeue(now, tag, e);
        }
        main, unacked := main + multiset{unacked[tag].event}, unacked - {tag};
        assert View() == Broker.Requeue(now, tag);
      }
      assert forall e :: Carrying(unacked, e) == {};
    }
  }

  /** The unacknowledged deliveries of one event. */
  ghost function Carrying(unacked: map<Broker.Tag, Broker.Delivery>, e: EventId): set<Broker.Tag> {
    set t | t in unacked && unacked[t].event == e
  }

  /** Copies of an event in the main queue or in somebody's hands. */
  ghost function Copies(b: Broker.State, e: EventId): nat { b.main[e] + |Carrying(b.unacked, e)| }

  lemma RequeueKeepsCopies(b: Broker.State, tag: Broker.Tag, e: EventId)
    requires tag in b.unacked
    ensures Copies(Broker.Requeue(b, tag), e) == Copies(b, e)
  {
    var after := Carrying(b.unacked - {tag}, e);
    assert Carrying(b.unacked, e) == if b.unacked[tag].event == e then after + {tag} else after;
  }

  // ---- What handling a delivery means ----------------------------------------------------------------

  /** The transaction of the delivery commits. */
  predicate Succeeds(inbox: map<EventId, Inbox.Row>, e: EventId, script: Script) { script.tried.Commits? && e in inbox }

  /** The session goes on exactly when the delivery was settled: the acknowledgement got through, after
      the effect was committed, or after the broker confirmed the copy of a failure that was recorded. */
  predicate GoesOn(inbox: map<EventId, Inbox.Row>, e: EventId, script: Script) {
    script.acked && !script.tried.Unrecorded? && (Succeeds(inbox, e, script) || script.copying.Confirmed?)
  }

  lemma HandleAnswers(c: Pipeline.Config, inbox: map<EventId, Inbox.Row>, b: Broker.State, tag: Broker.Tag,
                      script: Script)
    requires Pipeline.DeliveredAt(b, tag)
    ensures Handle(c, inbox, b, tag, script).ok <==> GoesOn(inbox, b.unacked[tag].event, script)
  {
  }

  /** What becomes of the delivery itself: gone when the session goes on, and otherwise still there, for
      the same event, to be given back. Nobody else's delivery is touched. */
  ghost predicate Kept(unacked: map<Broker.Tag, Broker.Delivery>, after: map<Broker.Tag, Broker.Delivery>,
                       tag: Broker.Tag, ok: bool)
    requires tag in unacked
  {
    && (tag in after <==> !ok)
    && (tag in after ==> after[tag].event == unacked[tag].event)
    && (forall t | t in after :: t in unacked && (t != tag ==> after[t] == unacked[t]))
    && (forall t | t in unacked && t != tag :: t in after)
  }

  lemma HandleKeeps(c: Pipeline.Config, inbox: map<EventId, Inbox.Row>, b: Broker.State, tag: Broker.Tag,
                    script: Script)
    requires Pipeline.DeliveredAt(b, tag)
    ensures var h := Handle(c, inbox, b, tag, script);
            h.broker.main == b.main && Kept(b.unacked, h.broker.unacked, tag, h.ok)
  {
  }

  /** The inbox row: closed by a commit, counted and perhaps failed by a recorded failure, and otherwise
      as it was. */
  ghost predicate RowAfter(c: Pipeline.Config, inbox: map<EventId, Inbox.Row>, after: map<EventId, Inbox.Row>,
                           e: EventId, script: Script) {
    if e !in inbox || script.tried.Unrecorded? then after == inbox
    else
      var row := inbox[e];
      if script.tried.Commits? then
        after == inbox[e := if row.status.Processed? then row
                            else Inbox.Row(row.providerKey, Inbox.Processed, row.attempts + 1, row.replays)]
      else
        var spent := script.tried.terminal || row.attempts + 1 >= c.maxAttempts;
        after == inbox[e := Inbox.Row(row.providerKey, if spent then Inbox.Failed else row.status, row.attempts + 1,
                                      row.replays)]
  }

  lemma HandleRecords(c: Pipeline.Config, inbox: map<EventId, Inbox.Row>, b: Broker.State, tag: Broker.Tag,
                      script: Script)
    requires Pipeline.DeliveredAt(b, tag)
    ensures RowAfter(c, inbox, Handle(c, inbox, b, tag, script).inbox, b.unacked[tag].event, script)
  {
  }

  /** The tier of an attempt count: the first for the first failure, and the last for all beyond the
      ladder. */
  function TierOf(tiers: seq<nat>, attempts: nat): nat
    requires |tiers| > 0 && attempts > 0
  {
    if attempts > |tiers| then |tiers| - 1 else attempts - 1
  }

  /** Where the copy is: in the tier of the count while the row is open and there are tiers, in the
      dead-letter queue otherwise, and nowhere unless a recorded failure was republished. */
  ghost predicate CopyAt(c: Pipeline.Config, b: Broker.State, after: Broker.State, e: EventId,
                         recorded: map<EventId, Inbox.Row>, republished: bool) {
    if !republished then after.waiting == b.waiting && after.dlq == b.dlq
    else if |c.tiers| == 0 || e !in recorded || recorded[e].status.Failed? then
      after.waiting == b.waiting && after.dlq == b.dlq + multiset{e}
    else
      && recorded[e].attempts > 0 && after.dlq == b.dlq
      && after.waiting == b.waiting + multiset{Broker.Waiting(TierOf(c.tiers, recorded[e].attempts), e)}
  }

  lemma HandleCopies(c: Pipeline.Config, inbox: map<EventId, Inbox.Row>, b: Broker.State, tag: Broker.Tag,
                     script: Script)
    requires Pipeline.DeliveredAt(b, tag)
    ensures var e := b.unacked[tag].event;
            var h := Handle(c, inbox, b, tag, script);
            CopyAt(c, b, h.broker, e, h.inbox,
                   !script.tried.Unrecorded? && !Succeeds(inbox, e, script) && !script.copying.Lost?)
  {
    var e := b.unacked[tag].event;
    var tried := Tried(inbox, e, script.tried);
    if tried.Rejects? && e in inbox { Inbox.FailureAnswer(inbox[e], tried.terminal, c.maxAttempts); }
  }

  class Service {
    const config: Pipeline.Config
    const db: Store.Database
    const broker: RabbitMq

    constructor (config: Pipeline.Config, db: Store.Database, broker: RabbitMq)
      ensures this.config == config && this.db == db && this.broker == broker
    {
      this.config, this.db, this.broker := config, db, broker;
    }

    /** Applies one delivery and settles it: acknowledged only after the effect is committed, or
        after the broker confirmed a copy elsewhere. `false` ends the session. */
    method HandleDelivery(tag: Broker.Tag, script: Script) returns (ok: bool)
      requires Pipeline.DeliveredAt(broker.View(), tag)
      modifies db`inbox, broker`waiting, broker`dlq, broker`unacked
      ensures Handle(config, old(db.inbox), old(broker.View()), tag, script) == Handled(db.inbox, broker.View(), ok)
      ensures ok <==> GoesOn(old(db.inbox), old(broker.unacked)[tag].event, script)
      ensures Kept(old(broker.unacked), broker.unacked, tag, ok) && broker.main == old(broker.main)
      ensures RowAfter(config, old(db.inbox), db.inbox, old(broker.unacked)[tag].event, script)
      ensures var e := old(broker.unacked)[tag].event;
              CopyAt(config, old(broker.View()), broker.View(), e, db.inbox,
                     !script.tried.Unrecorded? && !Succeeds(old(db.inbox), e, script) && !script.copying.Lost?)
    {
      HandleAnswers(config, db.inbox, broker.View(), tag, script);
      HandleKeeps(config, db.inbox, broker.View(), tag, script);
      HandleRecords(config, db.inbox, broker.View(), tag, script);
      HandleCopies(config, db.inbox, broker.View(), tag, script);
      var e := broker.unacked[tag].event;
      match Tried(db.inbox, e, script.tried) {
        case Unrecorded => ok := false;
        case Commits =>
          db.MarkProcessed(e);
          broker.Decide(tag, Inbox.Done, 0);
          ok := broker.Ack(tag, script.acked);
        case Rejects(terminal) =>
          var attempts, failed := db.RecordFailure(e, terminal, config.maxAttempts);
          broker.Decide(tag, Inbox.Classify(attempts, failed), attempts);
          ok := broker.Republish(config.tiers, tag, script.copying);
          if ok { ok := broker.Ack(tag, script.acked); }
      }
    }
  }

  /** Where a rejected message goes, once its copy reaches the broker: to the dead-letter queue
      exactly when its row does not exist or is failed by then, and otherwise to the retry tier of
      its attempt count, which is within the budget. */
  lemma DeadLetterIff(
    c: Pipeline.Config, inbox: map<EventId, Inbox.Row>, b: Broker.State, tag: Broker.Tag, script: Script)
    requires |c.tiers| > 0 && Pipeline.DeliveredAt(b, tag)
    requires Tried(inbox, b.unacked[tag].event, script.tried).Rejects? && !script.copying.Lost?
    ensures var e := b.unacked[tag].event;
            var h := Handle(c, inbox, b, tag, script);
            && (h.broker.dlq == b.dlq + multiset{e} <==> e !in inbox || h.inbox[e].status.Failed?)
            && (e in inbox && !h.inbox[e].status.Failed? ==>
                && 1 <= h.inbox[e].attempts < c.maxAttempts && h.broker.dlq == b.dlq
                && h.broker.waiting
                   == b.waiting + multiset{Broker.Waiting(TierOf(c.tiers, h.inbox[e].attempts), e)})
            && (e !in inbox || h.inbox[e].status.Failed? ==> h.broker.waiting == b.waiting)
  {
    var e := b.unacked[tag].event;
    assert (b.dlq + multiset{e})[e] == b.dlq[e] + 1;
    var terminal := Tried(inbox, e, script.tried).terminal;
    if e in inbox { Inbox.FailureAnswer(inbox[e], terminal, c.maxAttempts); }
  }

  /** Handling a delivery is a run of pipeline steps, so every theorem about runs covers it. */
  lemma HandleIsRun(c: Pipeline.Config, steps: seq<Pipeline.Step>, tag: Broker.Tag, script: Script)
    returns (longer: seq<Pipeline.Step>)
    requires Pipeline.Run(c, steps).Some? && Pipeline.DeliveredAt(Pipeline.Run(c, steps).value.broker, tag)
    ensures Pipeline.Run(c, longer).Some?
    ensures var s, after := Pipeline.Run(c, steps).value, Pipeline.Run(c, longer).value;
            var h := Handle(c, s.inbox, s.broker, tag, script);
            after.inbox == h.inbox && after.broker == h.broker && after.outbox == s.outbox
  {
    longer := steps;
    var s := Pipeline.Run(c, steps).value;
    var tried := Tried(s.inbox, s.broker.unacked[tag].event, script.tried);
    if tried.Commits? { longer := CommitIsRun(c, steps, tag, script); }
    if tried.Rejects? { longer := RejectIsRun(c, steps, tag, script, tried.terminal); }
  }

  lemma CommitIsRun(c: Pipeline.Config, steps: seq<Pipeline.Step>, tag: Broker.Tag, script: Script)
    returns (longer: seq<Pipeline.Step>)
    requires Pipeline.Run(c, steps).Some? && Pipeline.DeliveredAt(Pipeline.Run(c, steps).value.broker, tag)
    requires var s := Pipeline.Run(c, steps).value; Tried(s.inbox, s.broker.unacked[tag].event, script.tried).Commits?
    ensures Pipeline.Run(c, longer).Some?
    ensures var s, after := Pipeline.Run(c, steps).value, Pipeline.Run(c, longer).value;
            var h := Handle(c, s.inbox, s.broker, tag, script);
            after.inbox == h.inbox && after.broker == h.broker && after.outbox == s.outbox
  {
    var s := Pipeline.Run(c, steps).value;
    longer := PipelineTheorems.Extend(c, steps, Pipeline.Commit(tag), s);
    if script.acked {
      longer := PipelineTheorems.Extend(c, longer, Pipeline.Ack(tag), Pipeline.Next(c, s, Pipeline.Commit(tag)));
    }
  }

  lemma RejectIsRun(c: Pipeline.Config, steps: seq<Pipeline.Step>, tag: Broker.Tag, script: Script, terminal: bool)
    returns (longer: seq<Pipeline.Step>)
    requires Pipeline.Run(c, steps).Some? && Pipeline.DeliveredAt(Pipeline.Run(c, steps).value.broker, tag)
    requires var s := Pipeline.Run(c, steps).value;
             Tried(s.inbox, s.broker.unacked[tag].event, script.tried) == Rejects(terminal)
    ensures Pipeline.Run(c, longer).Some?
    ensures var s, after := Pipeline.Run(c, steps).value, Pipeline.Run(c, longer).value;
            var h := Handle(c, s.inbox, s.broker, tag, script);
            after.inbox == h.inbox && after.broker == h.broker && after.outbox == s.outbox
  {
    var s := Pipeline.Run(c, steps).value;
    longer := PipelineTheorems.Extend(c, steps, Pipeline.Fail(tag, terminal), s);
    var failed := Pipeline.Next(c, s, Pipeline.Fail(tag, terminal));
    if !script.copying.Lost? {
      longer := PipelineTheorems.Extend(c, longer, Pipeline.Republish(tag), failed);
      var copied := Pipeline.Next(c, failed, Pipeline.Republish(tag));
      if script.copying.Confirmed? && script.acked {
        longer := PipelineTheorems.Extend(c, longer, Pipeline.Ack(tag), copied);
      }
    }
  }
}
