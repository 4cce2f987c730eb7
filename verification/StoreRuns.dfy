/** The statements of the repositories are steps of the pipeline: what they do to the tables, and when, is
    what the steps do. */
module StoreRuns {
  import opened Common
  import opened Pipeline
  import Inbox
  import Outbox

  /** An arrival is stored exactly when its provider event is new: pending and with a message that is due
      at once when it is handled, and skipped without one when it is not. */
  lemma ArrivalIsStep(c: Config, s: State, e: EventId, key: nat, handled: bool)
    requires e !in s.inbox && e !in s.outbox
    ensures Enabled(c, s, Receive(e, key, handled)) <==> forall x | x in s.inbox :: s.inbox[x].providerKey != key
    ensures Enabled(c, s, Receive(e, key, handled)) ==>
              var after := Next(c, s, Receive(e, key, handled));
              && after.inbox == s.inbox[e := Inbox.Row(key, if handled then Inbox.Pending else Inbox.Skipped, 0, 0)]
              && after.outbox
                 == (if handled then s.outbox[e := Outbox.Row(Outbox.Pending, 0, None, s.now, 0)] else s.outbox)
              && after.broker == s.broker && after.relays == s.relays
  {
  }

  /** What a claim takes, a relay that has begun its cycle may take, with the same rows afterwards and a
      lease for each of them in hand. */
  lemma ClaimIsStep(c: Config, s: State, o: Owner, locked: set<EventId>, ids: seq<EventId>)
    requires RelayOf(s, o).Begun? && Outbox.EarliestDue(s.outbox, s.now, locked, c.batchSize, ids)
    ensures Enabled(c, s, Lease(o, ids))
    ensures var after := Next(c, s, Lease(o, ids));
            && Outbox.Stamped(s.outbox, after.outbox, ids, o, s.now + c.leaseDuration)
            && after.inbox == s.inbox && after.broker == s.broker
            && RelayOf(after, o).Cycle? && |after.relays[o].leases| == |ids|
            && forall i | 0 <= i < |ids| ::
                 after.relays[o].leases[i].event == ids[i] && after.relays[o].leases[i].until == s.now + c.leaseDuration
  {
  }

  /** A replay is open exactly for a failed event whose message is not being published, and for a pending
      one whose publication failed; both rows wait again, and only a failed event gets its budget back. */
  lemma ReplayIsStep(c: Config, s: State, e: EventId)
    requires e in s.inbox && e in s.outbox
    ensures Enabled(c, s, Replay(e))
            <==> || (s.inbox[e].status.Failed? && (s.outbox[e].status.Published? || s.outbox[e].status.Failed?))
                 || (s.inbox[e].status.Pending? && s.outbox[e].status.Failed?)
    ensures Enabled(c, s, Replay(e)) ==>
              var after, row := Next(c, s, Replay(e)), s.inbox[e];
              && after.inbox == s.inbox[e := Inbox.Row(row.providerKey, Inbox.Pending,
                                                       if row.status.Failed? then 0 else row.attempts, row.replays + 1)]
              && after.outbox == s.outbox[e := Outbox.Row(Outbox.Pending, 0, None, s.now, s.outbox[e].grant)]
              && after.broker == s.broker && after.relays == s.relays
  {
  }
}
