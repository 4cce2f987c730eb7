/** The tables behind the pipeline, updated in place by single statements and short
    transactions (the webhook, outbox and operations repositories). */
module Store {
  import opened Common
  import Inbox
  import Outbox

  datatype ReplayResult = Replayed | NotFound | NotReplayable | ReplayInvariantBroken

  class Database {
    var now: int
    var inbox: map<EventId, Inbox.Row>
    var outbox: Outbox.Table

    constructor ()
      ensures now == 0 && inbox == map[] && outbox == map[]
    {
      now, inbox, outbox := 0, map[], map[];
    }

    /** Both rows or neither: an accepted event always has its message. */
    method StorePending(e: EventId, key: nat) returns (stored: bool)
      requires e !in inbox && e !in outbox  // identifiers are freshly generated
      modifies this`inbox, this`outbox
      ensures stored <==> forall x | x in old(inbox) :: old(inbox)[x].providerKey != key
      ensures inbox == if stored then old(inbox)[e := Inbox.Row(key, Inbox.Pending, 0, 0)] else old(inbox)
      ensures outbox == if stored then old(outbox)[e := Outbox.Row(Outbox.Pending, 0, None, now, 0)] else old(outbox)
    {
      stored := InsertEvent(e, key, true);
      if stored { outbox := outbox[e := Outbox.NewRow(now)]; }
    }

    method StoreIgnored(e: EventId, key: nat) returns (stored: bool)
      requires e !in inbox
      modifies this`inbox
      ensures stored <==> forall x | x in old(inbox) :: old(inbox)[x].providerKey != key
      ensures inbox == if stored then old(inbox)[e := Inbox.Row(key, Inbox.Skipped, 0, 0)] else old(inbox)
    {
      stored := InsertEvent(e, key, false);
    }

    /** ON CONFLICT (provider, provider_event_id) DO NOTHING. */
    method InsertEvent(e: EventId, key: nat, handled: bool) returns (inserted: bool)
      requires e !in inbox
      modifies this`inbox
      ensures inserted <==> forall x | x in old(inbox) :: old(inbox)[x].providerKey != key
      ensures inbox == if inserted then old(inbox)[e := Inbox.NewRow(key, handled)] else old(inbox)
    {
      inserted := forall x | x in inbox :: inbox[x].providerKey != key;
      if inserted { inbox := inbox[e := Inbox.NewRow(key, handled)]; }
    }

    /** Among the candidates, the row whose next attempt is earliest. */
    method Earliest(candidates: set<EventId>) returns (first: EventId)
      requires candidates != {} && candidates <= outbox.Keys
      ensures first in candidates
      ensures forall x | x in candidates :: outbox[first].nextAttempt <= outbox[x].nextAttempt
    {
      first :| first in candidates;
      var rest := candidates - {first};
      while rest != {}
        invariant first in candidates && rest <= candidates
        invariant forall x | x in candidates - rest :: outbox[first].nextAttempt <= outbox[x].nextAttempt
        decreases |rest|
      {
        var x :| x in rest;
        if outbox[x].nextAttempt < outbox[first].nextAttempt { first := x; }
        rest := rest - {x};
      }
    }

    /** LeaseOutboxBatch: claims the `batchSize` earliest due rows no concurrent claim has locked,
        stamping them with a deadline read from the database clock. */
    method Lease(owner: Owner, batchSize: nat, duration: int, skipLocked: set<EventId>)
      returns (ids: seq<EventId>)
      modifies this`outbox
      ensures Outbox.EarliestDue(old(outbox), now, skipLocked, batchSize, ids)
      ensures Outbox.Stamped(old(outbox), outbox, ids, owner, now + duration)
      ensures outbox == Outbox.LeaseAll(old(outbox), Elements(ids), owner, now + duration)
    {
      var due := set x | x in outbox && x !in skipLocked && Outbox.Due(outbox[x], now);
      ids := [];
      var left := due;
      while |ids| < batchSize && left != {}
        invariant outbox == old(outbox) && Distinct(ids) && |ids| <= batchSize
        invariant left <= due && forall x :: x in ids <==> x in due && x !in left
        invariant forall x, y | x in left && y in ids :: outbox[y].nextAttempt <= outbox[x].nextAttempt
        decreases left
      {
        var first := Earliest(left);
        ids, left := ids + [first], left - {first};
      }
      outbox := Outbox.LeaseAll(outbox, Elements(ids), owner, now + duration);
    }

    /** MarkOutboxPublished, MarkOutboxRetryable and MarkOutboxFailed; zero rows is a lost lease. */
    method Settle(owner: Owner, id: EventId, how: Outbox.Outcome) returns (affected: nat)
      modifies this`outbox
      ensures Outbox.SettledAs(old(outbox), outbox, id, owner, how, now, affected)
      ensures (outbox, affected) == Outbox.Settle(old(outbox), id, owner, how, now)
    {
      affected := 0;
      if id in outbox && Outbox.Holds(outbox[id], owner, now) {
        outbox := outbox[id := Outbox.SettleRow(outbox[id], how, now)];
        affected := 1;
      }
    }

    /** Counts a failed attempt and closes the row in the same statement. */
    method RecordFailure(e: EventId, terminal: bool, maxAttempts: nat) returns (attempts: nat, failed: bool)
      modifies this`inbox
      ensures e !in old(inbox) ==> inbox == old(inbox) && attempts == 0 && failed
      ensures e in old(inbox) ==>
        && inbox == old(inbox)[e := Inbox.RecordFailure(old(inbox)[e], terminal, maxAttempts)]
        && attempts == inbox[e].attempts == old(inbox)[e].attempts + 1
        && (failed <==> inbox[e].status.Failed?)
        && (failed <==> old(inbox)[e].status.Failed? || terminal || attempts >= maxAttempts)
    {
      if e !in inbox { return 0, true; }
      Inbox.FailureAnswer(inbox[e], terminal, maxAttempts);
      inbox := inbox[e := Inbox.RecordFailure(inbox[e], terminal, maxAttempts)];
      return inbox[e].attempts, inbox[e].status.Failed?;
    }

    method MarkProcessed(e: EventId)
      requires e in inbox
      modifies this`inbox
      ensures inbox == old(inbox)[e := Inbox.MarkProcessed(old(inbox)[e])]
      ensures !old(inbox)[e].status.Processed? ==>
                inbox[e] == old(inbox)[e].(status := Inbox.Processed, attempts := old(inbox)[e].attempts + 1)
      ensures old(inbox)[e].status.Processed? ==> inbox == old(inbox)
    {
      inbox := inbox[e := Inbox.MarkProcessed(inbox[e])];
    }

    /** ResetWebhookEventForReplay, with the number of rows it matched. */
    method ResetEvent(e: EventId) returns (rows: nat)
      modifies this`inbox
      ensures rows
              == if e in old(inbox) && (old(inbox)[e].status.Pending? || old(inbox)[e].status.Failed?) then 1 else 0
      ensures inbox == if rows == 1 then old(inbox)[e := Inbox.ResetForReplay(old(inbox)[e])] else old(inbox)
    {
      rows := 0;
      if e in inbox && (inbox[e].status.Pending? || inbox[e].status.Failed?) {
        inbox, rows := inbox[e := Inbox.ResetForReplay(inbox[e])], 1;
      }
    }

    /** ResetOutboxForReplay, with the number of rows it matched. */
    method ResetMessage(e: EventId) returns (rows: nat)
      modifies this`outbox
      ensures rows == if e in old(outbox) && Outbox.Resettable(old(outbox)[e]) then 1 else 0
      ensures outbox == if rows == 1 then old(outbox)[e := Outbox.ResetRow(old(outbox)[e], now)] else old(outbox)
    {
      rows := 0;
      if e in outbox && Outbox.Resettable(outbox[e]) {
        outbox, rows := outbox[e := Outbox.ResetRow(outbox[e], now)], 1;
      }
    }

    /** Reprocess: both rows are reset together or the transaction rolls back. A row a relay is
        publishing is never taken from it. */
    method Reprocess(e: EventId) returns (result: ReplayResult)
      modifies this`inbox, this`outbox
      ensures result.Replayed? <==>
        && e in old(inbox) && e in old(outbox)
        && (old(outbox)[e].status.Published? || old(outbox)[e].status.Failed?)
        && (old(inbox)[e].status.Failed? || (old(inbox)[e].status.Pending? && old(outbox)[e].status.Failed?))
      ensures result.NotFound? <==> e !in old(inbox)
      ensures result.ReplayInvariantBroken? <==>
        && e in old(inbox) && e in old(outbox) && old(inbox)[e].status.Failed?
        && (old(outbox)[e].status.Pending? || old(outbox)[e].status.Publishing?)
      // Both rows wait again; only a failed event gets its budget back, and the message is due at once.
      ensures !result.Replayed? ==> inbox == old(inbox) && outbox == old(outbox)
      ensures result.Replayed? ==>
        && inbox == old(inbox)[e := Inbox.Row(old(inbox)[e].providerKey, Inbox.Pending,
                                              if old(inbox)[e].status.Failed? then 0 else old(inbox)[e].attempts,
                                              old(inbox)[e].replays + 1)]
        && outbox == old(outbox)[e := Outbox.Row(Outbox.Pending, 0, None, now, old(outbox)[e].grant)]
    {
      if e !in inbox { return NotFound; }
      if e !in outbox { return NotReplayable; }
      var event, message := inbox[e].status, outbox[e].status;
      if (!event.Pending? && !event.Failed?) || (!event.Failed? && !message.Failed?) { return NotReplayable; }
      var savedInbox, savedOutbox := inbox, outbox;
      var eventRows := ResetEvent(e);
      var messageRows := ResetMessage(e);
      if eventRows != 1 || messageRows != 1 {
        inbox, outbox := savedInbox, savedOutbox;
        return ReplayInvariantBroken;
      }
      return Replayed;
    }
  }
}
