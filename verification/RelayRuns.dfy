/** A relay cycle that nobody interferes with is a run of pipeline steps; what others do meanwhile
    are steps of their own there, and arbitrary statements in `Relay`. */
module RelayRuns {
  import opened Common
  import opened Relay
  import Outbox
  import P = Pipeline
  import PipelineTheorems

  predicate Quiet(fs: seq<Foreign>) { forall f | f in fs :: f.op.Nothing? }

  predicate QuietTrip(trip: Trip) { Quiet(trip.during) && Quiet(trip.before) }

  lemma {:induction false} QuietChangesNothing(t: Outbox.Table, now: int, fs: seq<Foreign>)
    requires Quiet(fs)
    ensures RunForeign(t, now, fs) == t
    decreases |fs|
  {
    if fs != [] {
      assert fs[0] in fs;
      QuietChangesNothing(t, now + fs[0].wait, fs[1..]);
    }
  }

  lemma QuietArrival(t: Outbox.Table, now: int, budget: nat, trip: Trip)
    requires QuietTrip(trip)
    ensures Arrived(t, now, budget, trip)
            == (t, now + Elapsed(Within(trip.during, budget)) + Elapsed(trip.before))
  {
    var during := Within(trip.during, budget);
    QuietChangesNothing(t, now, during);
    QuietChangesNothing(t, now + Elapsed(during), trip.before);
  }

  /** The relay is about to publish the first of these leases. */
  predicate Working(s: P.State, me: Owner, ids: seq<EventId>) {
    && P.RelayOf(s, me).Cycle? && s.relays[me].progress.Sending? && |s.relays[me].leases| == |ids|
    && forall i | 0 <= i < |ids| :: s.relays[me].leases[i].event == ids[i]
  }

  /** The publish call: time passes, and the relay holds what the call returned. */
  lemma PublishIsRun(c: P.Config, steps: seq<P.Step>, s: P.State, me: Owner, elapsed: nat, result: PublishResult)
    returns (longer: seq<P.Step>, after: P.State)
    requires P.Run(c, steps) == Some(s) && P.Publishing(P.RelayOf(s, me)) && s.relays[me].progress.Sending?
    ensures P.Run(c, longer) == Some(after)
    ensures after.outbox == s.outbox && after.inbox == s.inbox && after.now == s.now + elapsed
    ensures var progress := if result.Acked? then P.Confirmed(after.now) else P.Refused(result.Permanent?, after.now);
            after.relays == s.relays[me := s.relays[me].(progress := progress)]
  {
    longer := PipelineTheorems.Extend(c, steps, P.Tick(elapsed), s);
    after := P.Next(c, s, P.Tick(elapsed));
    var end := P.Refuse(me, result.Permanent?);
    if result.Acked? {
      longer := PipelineTheorems.Extend(c, longer, P.Accept(me), after);
      after := P.Next(c, after, P.Accept(me));
      end := P.Confirm(me);
    }
    longer := PipelineTheorems.Extend(c, longer, end, after);
    after := P.Next(c, after, end);
  }

  /** The settlement, after some more time. */
  lemma SettleIsRun(c: P.Config, steps: seq<P.Step>, s: P.State, me: Owner, elapsed: nat, result: PublishResult,
                    backoff: nat)
    returns (longer: seq<P.Step>, after: P.State)
    requires P.Run(c, steps) == Some(s) && P.Publishing(P.RelayOf(s, me))
    requires s.relays[me].progress.Confirmed? || s.relays[me].progress.Refused?
    requires s.relays[me].progress.Confirmed? <==> result.Acked?
    requires s.relays[me].progress.Refused? ==> (s.relays[me].progress.permanent <==> result.Permanent?)
    ensures P.Run(c, longer) == Some(after) && after.now == s.now + elapsed && after.inbox == s.inbox
    ensures after.outbox
            == Outbox.Settle(s.outbox, s.relays[me].leases[0].event, me, How(result, backoff), after.now).0
    ensures after.relays
            == s.relays[me := s.relays[me].(leases := s.relays[me].leases[1..], progress := P.Sending)]
  {
    longer := PipelineTheorems.Extend(c, steps, P.Tick(elapsed), s);
    after := P.Next(c, s, P.Tick(elapsed));
    longer := PipelineTheorems.Extend(c, longer, P.Settle(me, backoff), after);
    after := P.Next(c, after, P.Settle(me, backoff));
  }

  /** One message of the loop. */
  lemma TrialIsRun(c: P.Config, steps: seq<P.Step>, s: P.State, me: Owner, deadline: int, ids: seq<EventId>, trip: Trip)
    returns (longer: seq<P.Step>, after: P.State)
    requires P.Run(c, steps) == Some(s) && ids != [] && Working(s, me, ids)
    requires s.now < deadline && QuietTrip(trip) && trip.stored
    ensures P.Run(c, longer) == Some(after) && Working(after, me, ids[1..]) && after.inbox == s.inbox
    ensures var (table, now, outcome) := Trial(me, deadline, s.outbox, s.now, ids[0], trip);
            after.outbox == table && after.now == now
  {
    var budget := Budget(s.now, deadline);
    var result := Result(trip, budget);
    QuietArrival(s.outbox, s.now, budget, trip);
    longer, after := PublishIsRun(c, steps, s, me, Elapsed(Within(trip.during, budget)), result);
    longer, after := SettleIsRun(c, longer, after, me, Elapsed(trip.before), result, trip.backoff);
  }

  /** The whole loop: the tables and the clock it ends with are those of a run. */
  lemma {:induction false} CycleIsRun(c: P.Config, steps: seq<P.Step>, s: P.State, me: Owner, deadline: int,
                                      ids: seq<EventId>, trips: seq<Trip>, i: nat)
    returns (longer: seq<P.Step>)
    requires i <= |ids| <= |trips| && forall trip | trip in trips :: QuietTrip(trip)
    requires P.Run(c, steps) == Some(s) && Working(s, me, ids[i..])
    ensures P.Run(c, longer).Some?
    ensures var end, after := Cycle(me, deadline, s.outbox, s.now, ids, trips, i), P.Run(c, longer).value;
            after.outbox == end.table && after.now == end.now && after.inbox == s.inbox
    decreases |ids| - i
  {
    longer := steps;
    if i < |ids| && !trips[i].cancelled && s.now < deadline {
      assert trips[i] in trips && ids[i..][0] == ids[i] && ids[i..][1..] == ids[i + 1..];
      if trips[i].stored {
        var after;
        longer, after := TrialIsRun(c, steps, s, me, deadline, ids[i..], trips[i]);
        longer := CycleIsRun(c, longer, after, me, deadline, ids, trips, i + 1);
      } else {
        // The database does not answer: time has passed, and the cycle ends.
        QuietArrival(s.outbox, s.now, Budget(s.now, deadline), trips[i]);
        var elapsed := Arrived(s.outbox, s.now, Budget(s.now, deadline), trips[i]).1 - s.now;
        longer := PipelineTheorems.Extend(c, steps, P.Tick(elapsed), s);
      }
    }
  }
}
