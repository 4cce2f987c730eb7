/** The outbox relay: one cycle leases a batch, publishes it message by message inside a
    publication window and settles each outcome, while other relays and operators keep
    executing statements on the same table. */
module Relay {
  import opened Common
  import Outbox
  import Store

  const LEASE_TIMEOUT: int := 5_000_000_000

  // ---- The rest of the world ---------------------------------------------------------------

  /** A statement somebody else executes on the table. */
  datatype Op =
    | Nothing
    | Claim(owner: Owner, ids: set<EventId>, duration: nat)
    | SettleOther(owner: Owner, id: EventId, how: Outbox.Outcome)
    | Replay(id: EventId)
    | Insert(id: EventId)

  /** Time passes, then the statement runs. */
  datatype Foreign = Foreign(wait: nat, op: Op)

  function Apply(t: Outbox.Table, now: int, op: Op): Outbox.Table {
    match op
    case Nothing => t
    case Claim(o, ids, d) => Outbox.LeaseAll(t, (set x | x in ids && x in t && Outbox.Due(t[x], now)), o, now + d)
    case SettleOther(o, id, how) => Outbox.Settle(t, id, o, how, now).0
    case Replay(id) => if id in t && Outbox.Resettable(t[id]) then t[id := Outbox.ResetRow(t[id], now)] else t
    case Insert(id) => if id in t then t else t[id := Outbox.NewRow(now)]
  }

  function Elapsed(fs: seq<Foreign>): nat { if fs == [] then 0 else fs[0].wait + Elapsed(fs[1..]) }

  function RunForeign(t: Outbox.Table, now: int, fs: seq<Foreign>): Outbox.Table
    decreases |fs|
  {
    if fs == [] then t
    else RunForeign(Apply(t, now + fs[0].wait, fs[0].op), now + fs[0].wait, fs[1..])
  }

  /** None of the statements is ours. */
  predicate Others(me: Owner, fs: seq<Foreign>) {
    forall f | f in fs :: (f.op.Claim? || f.op.SettleOther?) ==> f.op.owner != me
  }

  /** What fits into a time budget; the context deadline cuts the rest off. */
  function Within(fs: seq<Foreign>, budget: nat): (r: seq<Foreign>)
    ensures Elapsed(r) == if Elapsed(fs) <= budget then Elapsed(fs) else budget
    ensures Elapsed(fs) <= budget ==> r == fs
    ensures forall f | f in r :: f in fs || f.op.Nothing?
  {
    if fs == [] then []
    else if fs[0].wait > budget then [Foreign(budget, Nothing)]
    else
      var rest := Within(fs[1..], budget - fs[0].wait);
      assert ([fs[0]] + rest)[1..] == rest;
      [fs[0]] + rest
  }

  // ---- One cycle ---------------------------------------------------------------------------

  datatype PublishResult = Acked | Transient | Permanent

  datatype Outcome = Published | Retrying | Failed | LeaseLost

  /** What happens around one message: whether the parent context was cancelled before it, how
      the publish call would end on its own, what others do during the call and between its
      return and our settlement statement, and whether the database answers. */
  datatype Trip = Trip(
    cancelled: bool, result: PublishResult, backoff: nat,
    during: seq<Foreign>, before: seq<Foreign>, stored: bool)

  datatype Tally = Tally(leased: nat, published: nat, retrying: nat, failed: nat, leasesLost: nat)

  datatype CycleEnd = CycleEnd(table: Outbox.Table, now: int, outcomes: seq<Outcome>, failed: bool)

  function Budget(now: int, deadline: int): int {
    if deadline - now < Outbox.PUBLISH_BUDGET then deadline - now else Outbox.PUBLISH_BUDGET
  }

  /** A publish call that outlives its context ends as a transient error at the deadline. */
  function Result(trip: Trip, budget: nat): PublishResult {
    if Elapsed(trip.during) <= budget then trip.result else Transient
  }

  function How(result: PublishResult, backoff: nat): Outbox.Outcome {
    match result
    case Acked => Outbox.MarkPublished
    case Permanent => Outbox.MarkFailed
    case Transient => Outbox.MarkRetryable(backoff)
  }

  function OutcomeOf(result: PublishResult, affected: nat): Outcome {
    if affected == 0 then LeaseLost
    else match result
      case Acked => Published
      case Permanent => Failed
      case Transient => Retrying
  }

  /** Table and clock just before our settlement statement. */
  function Arrived(t: Outbox.Table, now: int, budget: nat, trip: Trip): (Outbox.Table, int) {
    var during := Within(trip.during, budget);
    var returned := now + Elapsed(during);
    (RunForeign(RunForeign(t, now, during), returned, trip.before), returned + Elapsed(trip.before))
  }

  function Prepend(os: seq<Outcome>, end: CycleEnd): CycleEnd { end.(outcomes := os + end.outcomes) }

  lemma PrependTwice(os: seq<Outcome>, o: Outcome, end: CycleEnd)
    ensures Prepend(os, Prepend([o], end)) == Prepend(os + [o], end)
  {
  }

  /** The specification of the relay loop from its `i`-th lease on. */
  function Cycle(me: Owner, deadline: int, t: Outbox.Table, now: int, ids: seq<EventId>, trips: seq<Trip>,
                 i: nat): CycleEnd
    requires i <= |ids| <= |trips|
    decreases |ids| - i
  {
    if i == |ids| || trips[i].cancelled || now >= deadline then CycleEnd(t, now, [], false)
    else
      var (t1, n1, outcome) := Trial(me, deadline, t, now, ids[i], trips[i]);
      if !trips[i].stored then CycleEnd(t1, n1, [], true)
      else
        var rest := Cycle(me, deadline, t1, n1, ids, trips, i + 1);
        Prepend([outcome], rest)
  }

  /** The loop's specification, one stored outcome later. */
  lemma CycleStep(os: seq<Outcome>, me: Owner, deadline: int, t: Outbox.Table, now: int, ids: seq<EventId>,
                  trips: seq<Trip>, i: nat)
    requires i < |ids| <= |trips| && !trips[i].cancelled && now < deadline && trips[i].stored
    ensures var (t1, n1, outcome) := Trial(me, deadline, t, now, ids[i], trips[i]);
            Prepend(os, Cycle(me, deadline, t, now, ids, trips, i))
            == Prepend(os + [outcome], Cycle(me, deadline, t1, n1, ids, trips, i + 1))
  {
    var (t1, n1, outcome) := Trial(me, deadline, t, now, ids[i], trips[i]);
    PrependTwice(os, outcome, Cycle(me, deadline, t1, n1, ids, trips, i + 1));
  }

  /** One message: published inside the window, then settled unless the database fails. */
  function Trial(me: Owner, deadline: int, t: Outbox.Table, now: int, id: EventId,
                 trip: Trip): (Outbox.Table, int, Outcome)
    requires now < deadline
  {
    var budget := Budget(now, deadline);
    var (t1, n1) := Arrived(t, now, budget, trip);
    if !trip.stored then (t1, n1, LeaseLost)
    else
      var (t2, affected) := Outbox.Settle(t1, id, me, How(Result(trip, budget), trip.backoff), n1);
      (t2, n1, OutcomeOf(Result(trip, budget), affected))
  }

  function Count(os: seq<Outcome>, o: Outcome): nat {
    if os == [] then 0 else (if os[0] == o then 1 else 0) + Count(os[1..], o)
  }

  function TallyOf(leased: nat, os: seq<Outcome>): Tally {
    Tally(leased, Count(os, Published), Count(os, Retrying), Count(os, Failed), Count(os, LeaseLost))
  }

  function Add(t: Tally, o: Outcome): Tally {
    match o
    case Published => t.(published := t.published + 1)
    case Retrying => t.(retrying := t.retrying + 1)
    case Failed => t.(failed := t.failed + 1)
    case LeaseLost => t.(leasesLost := t.leasesLost + 1)
  }

  /** The claim runs under its own timeout and under the publication window. */
  predicate ClaimTimesOut(claiming: seq<Foreign>, leaseDuration: int) {
    Elapsed(claiming) > LEASE_TIMEOUT || Elapsed(claiming) >= leaseDuration - Outbox.SETTLEMENT_RESERVE
  }

  /** The rows a claim leaves, and what it took. */
  ghost predicate Leases(t: Outbox.Table, now: int, locked: set<EventId>, batchSize: nat, me: Owner, until: int,
                         ids: seq<EventId>, after: Outbox.Table) {
    Outbox.EarliestDue(t, now, locked, batchSize, ids) && after == Outbox.LeaseAll(t, Elements(ids), me, until)
  }

  class Service {
    const owner: Owner
    const batchSize: nat
    const leaseDuration: int
    const db: Store.Database

    constructor (owner: Owner, batchSize: nat, leaseDuration: int, db: Store.Database)
      ensures this.owner == owner && this.batchSize == batchSize
      ensures this.leaseDuration == leaseDuration && this.db == db
    {
      this.owner, this.batchSize, this.leaseDuration, this.db := owner, batchSize, leaseDuration, db;
    }

    /** Lets time pass while others use the table. */
    method Elapse(fs: seq<Foreign>)
      modifies db
      ensures db.outbox == RunForeign(old(db.outbox), old(db.now), fs)
      ensures db.now == old(db.now) + Elapsed(fs) && db.inbox == old(db.inbox)
    {
      var rest := fs;
      while rest != []
        invariant RunForeign(db.outbox, db.now, rest) == RunForeign(old(db.outbox), old(db.now), fs)
        invariant db.now + Elapsed(rest) == old(db.now) + Elapsed(fs) && db.inbox == old(db.inbox)
        decreases |rest|
      {
        db.now := db.now + rest[0].wait;
        db.outbox := Apply(db.outbox, db.now, rest[0].op);
        rest := rest[1..];
      }
    }

    /** publishOne: publishes inside the window and settles the outcome with the parent context. */
    method PublishOne(id: EventId, deadline: int, skew: int, trip: Trip) returns (outcome: Outcome)
      requires db.now + skew < deadline
      modifies db
      ensures (db.outbox, db.now, outcome)
              == Trial(owner, deadline - skew, old(db.outbox), old(db.now), id, trip)
      ensures db.inbox == old(db.inbox)
      // Under a lease that outlasts the window by the reserve the outcome is the broker's answer.
      ensures id in old(db.outbox) && trip.stored && Timely(owner, trip) ==>
                forall until | Held(old(db.outbox), id, owner, until) && until >= deadline - skew + 5_000_000_000 ::
                  && AnsweredAs(outcome, trip, old(db.now), deadline - skew)
                  && id in db.outbox && RowAs(db.outbox[id], old(db.outbox)[id], outcome, db.now, trip.backoff)
    {
      hide Held, Timely, AnsweredAs, RowAs, RunForeign, Elapsed;
      forall until | id in db.outbox && Held(db.outbox, id, owner, until) && trip.stored && Timely(owner, trip)
                     && until >= deadline - skew + Outbox.SETTLEMENT_RESERVE
        ensures var (after, end, o) := Trial(owner, deadline - skew, db.outbox, db.now, id, trip);
                && AnsweredAs(o, trip, db.now, deadline - skew)
                && id in after && RowAs(after[id], db.outbox[id], o, end, trip.backoff)
      {
        TrialIsExact(owner, deadline - skew, db.outbox, db.now, trip, id, until);
      }
      var budget := Budget(db.now + skew, deadline);
      Elapse(Within(trip.during, budget));
      Elapse(trip.before);
      outcome := LeaseLost;
      if trip.stored {
        var result := Result(trip, budget);
        var affected := db.Settle(owner, id, How(result, trip.backoff));
        outcome := OutcomeOf(result, affected);
      }
    }

    /** The loop of runOnce over the leases it claimed. */
    method PublishBatch(ids: seq<EventId>, deadline: int, skew: int, ghost end: int, trips: seq<Trip>)
      returns (outcomes: seq<Outcome>, tally: Tally, failed: bool)
      requires |ids| <= |trips| && deadline == end + skew
      modifies db
      ensures Cycle(owner, end, old(db.outbox), old(db.now), ids, trips, 0)
              == CycleEnd(db.outbox, db.now, outcomes, failed)
      ensures tally == TallyOf(|ids|, outcomes) && db.inbox == old(db.inbox)
    {
      outcomes, failed, tally := [], false, Tally(|ids|, 0, 0, 0, 0);
      ghost var all := Cycle(owner, end, db.outbox, db.now, ids, trips, 0);
      for i := 0 to |ids|
        invariant !failed && tally == TallyOf(|ids|, outcomes) && db.inbox == old(db.inbox)
        invariant all == Prepend(outcomes, Cycle(owner, end, db.outbox, db.now, ids, trips, i))
      {
        if trips[i].cancelled || db.now + skew >= deadline { return; }
        if trips[i].stored { CycleStep(outcomes, owner, end, db.outbox, db.now, ids, trips, i); }
        var outcome := PublishOne(ids[i], deadline, skew, trips[i]);
        if !trips[i].stored { failed := true; return; }
        TallyAppend(|ids|, outcomes, outcome);
        outcomes, tally := outcomes + [outcome], Add(tally, outcome);
      }
    }

    /** What the claim of a cycle takes and leaves, when others used the table meanwhile. */
    ghost predicate Claimed(t: Outbox.Table, now: int, claiming: seq<Foreign>, skipLocked: set<EventId>,
                            ids: seq<EventId>, leased: Outbox.Table) {
      var before, n := RunForeign(t, now, claiming), now + Elapsed(claiming);
      if ClaimTimesOut(claiming, leaseDuration) then ids == [] && leased == before
      else Leases(before, n, skipLocked, batchSize, owner, n + leaseDuration, ids, leased)
    }

    /** Claims a batch, unless the statement outlives its context. */
    method Claim(claiming: seq<Foreign>, skipLocked: set<EventId>) returns (ids: seq<EventId>, claimed: bool)
      modifies db
      ensures claimed <==> !ClaimTimesOut(claiming, leaseDuration)
      ensures claimed <==> Elapsed(claiming) <= 5_000_000_000 && Elapsed(claiming) < leaseDuration - 5_000_000_000
      ensures db.now == old(db.now) + Elapsed(claiming) && db.inbox == old(db.inbox)
      ensures Claimed(old(db.outbox), old(db.now), claiming, skipLocked, ids, db.outbox) && |ids| <= batchSize
    {
      Elapse(claiming);
      ids, claimed := [], !ClaimTimesOut(claiming, leaseDuration);
      if claimed { ids := db.Lease(owner, batchSize, leaseDuration, skipLocked); }
    }

    /** runOnce, with the local clock running `skew` ahead of the database clock. The window is
        started before the claim, so the database deadline can only be later. */
    method RunOnce(skew: int, claiming: seq<Foreign>, skipLocked: set<EventId>, trips: seq<Trip>)
      returns (ids: seq<EventId>, outcomes: seq<Outcome>, tally: Tally, failed: bool, ghost leased: Outbox.Table)
      requires batchSize <= |trips|
      modifies db
      ensures db.inbox == old(db.inbox)
      ensures Claimed(old(db.outbox), old(db.now), claiming, skipLocked, ids, leased)
      ensures ClaimTimesOut(claiming, leaseDuration) ==>
                failed && outcomes == [] && db.outbox == leased && db.now == old(db.now) + Elapsed(claiming)
      ensures !ClaimTimesOut(claiming, leaseDuration) ==>
                var end := old(db.now) + leaseDuration - Outbox.SETTLEMENT_RESERVE;
                Cycle(owner, end, leased, old(db.now) + Elapsed(claiming), ids, trips, 0)
                == CycleEnd(db.outbox, db.now, outcomes, failed)
      ensures tally == TallyOf(|ids|, outcomes)
    {
      hide Cycle, RunForeign, Leases, Elapsed;
      ghost var end := db.now + leaseDuration - Outbox.SETTLEMENT_RESERVE;
      var deadline := db.now + skew + leaseDuration - Outbox.SETTLEMENT_RESERVE;
      var claimed;
      ids, claimed := Claim(claiming, skipLocked);
      leased, outcomes := db.outbox, [];
      if !claimed { return [], [], TallyOf(0, []), true, leased; }
      outcomes, tally, failed := PublishBatch(ids, deadline, skew, end, trips);
    }
  }

  lemma {:induction false} TallyAppend(n: nat, os: seq<Outcome>, o: Outcome)
    ensures TallyOf(n, os + [o]) == Add(TallyOf(n, os), o)
  {
    CountAppend(os, o);
  }

  lemma {:induction false} CountAppend(os: seq<Outcome>, o: Outcome)
    ensures forall x :: Count(os + [o], x) == Count(os, x) + if x == o then 1 else 0
  {
    if os == [] {
      assert os + [o] == [o];
    } else {
      CountAppend(os[1..], o);
      assert (os + [o])[1..] == os[1..] + [o];
    }
  }

  /** Each counter is the number of its outcome. */
  lemma TallyCounts(n: nat, os: seq<Outcome>)
    ensures var t := TallyOf(n, os);
            && t.leased == n && t.published == multiset(os)[Published] && t.retrying == multiset(os)[Retrying]
            && t.failed == multiset(os)[Failed] && t.leasesLost == multiset(os)[LeaseLost]
  {
    CountIsMultiplicity(os, Published);
    CountIsMultiplicity(os, Retrying);
    CountIsMultiplicity(os, Failed);
    CountIsMultiplicity(os, LeaseLost);
  }

  lemma {:induction false} CountIsMultiplicity(os: seq<Outcome>, o: Outcome)
    ensures Count(os, o) == multiset(os)[o]
  {
    if os != [] {
      CountIsMultiplicity(os[1..], o);
      assert os == [os[0]] + os[1..];
    }
  }

  // ---- What the cycle guarantees -------------------------------------------------------------

  predicate Held(t: Outbox.Table, id: EventId, me: Owner, until: int) {
    id in t && t[id].status.Publishing? && t[id].lock == Some(Outbox.Lock(me, until))
  }

  /** Nobody else can touch a row before its lease expires. */
  lemma {:induction false} OthersKeepHeld(
    t: Outbox.Table, now: int, fs: seq<Foreign>, me: Owner, id: EventId, until: int)
    requires Held(t, id, me, until) && Others(me, fs) && now + Elapsed(fs) < until
    ensures Held(RunForeign(t, now, fs), id, me, until) && RunForeign(t, now, fs)[id] == t[id]
    decreases |fs|
  {
    if fs != [] {
      var f := fs[0];
      assert f in fs;
      assert Held(Apply(t, now + f.wait, f.op), id, me, until);
      OthersKeepHeld(Apply(t, now + f.wait, f.op), now + f.wait, fs[1..], me, id, until);
    }
  }

  /** Settlements run within the reserve, and nobody impersonates this relay. */
  predicate Timely(me: Owner, trip: Trip) {
    Others(me, trip.during) && Others(me, trip.before) && Elapsed(trip.before) < Outbox.SETTLEMENT_RESERVE
  }

  lemma ArrivesInTime(me: Owner, deadline: int, t: Outbox.Table, now: int, trip: Trip, id: EventId, until: int)
    requires now < deadline && Timely(me, trip) && until >= deadline + Outbox.SETTLEMENT_RESERVE
    requires Held(t, id, me, until)
    ensures var (t1, n1) := Arrived(t, now, Budget(now, deadline), trip);
            n1 < until && Held(t1, id, me, until) && t1[id] == t[id]
  {
    var during := Within(trip.during, Budget(now, deadline));
    OthersKeepHeld(t, now, during, me, id, until);
    OthersKeepHeld(RunForeign(t, now, during), now + Elapsed(during), trip.before, me, id, until);
  }

  /** No message of any batch ends lease-lost: the publication window leaves the reserve free, and
      no clock other than the database's is ever compared with a lease. */
  lemma {:induction false} NoLeaseLost(
    me: Owner, deadline: int, t: Outbox.Table, now: int, ids: seq<EventId>, trips: seq<Trip>, i: nat, until: int)
    requires i <= |ids| <= |trips| && Distinct(ids)
    requires until >= deadline + Outbox.SETTLEMENT_RESERVE
    requires forall trip | trip in trips :: Timely(me, trip)
    requires forall j | i <= j < |ids| :: Held(t, ids[j], me, until)
    ensures LeaseLost !in Cycle(me, deadline, t, now, ids, trips, i).outcomes
    decreases |ids| - i
  {
    if i < |ids| && !trips[i].cancelled && now < deadline && trips[i].stored {
      var (t1, n1, outcome) := Trial(me, deadline, t, now, ids[i], trips[i]);
      assert trips[i] in trips;
      forall j | i <= j < |ids|
        ensures var (s, n) := Arrived(t, now, Budget(now, deadline), trips[i]);
                n < until && Held(s, ids[j], me, until)
      {
        ArrivesInTime(me, deadline, t, now, trips[i], ids[j], until);
      }
      NoLeaseLost(me, deadline, t1, n1, ids, trips, i + 1, until);
    }
  }

  // ---- What each message ends as -------------------------------------------------------------------

  /** The publish call returned within its budget of five seconds and within the window. */
  predicate InTime(trip: Trip, now: int, deadline: int) {
    Elapsed(trip.during) <= 5_000_000_000 && Elapsed(trip.during) <= deadline - now
  }

  /** Published exactly after an acknowledgement in time, failed exactly after a permanent error in time,
      and retried otherwise. */
  predicate AnsweredAs(o: Outcome, trip: Trip, now: int, deadline: int) {
    && (o.Published? <==> trip.result.Acked? && InTime(trip, now, deadline))
    && (o.Failed? <==> trip.result.Permanent? && InTime(trip, now, deadline))
    && (o.Retrying? <==> trip.result.Transient? || !InTime(trip, now, deadline))
  }

  /** The row carries the outcome: one attempt more, no lock, and a backoff when it is retried. */
  predicate RowAs(row: Outbox.Row, was: Outbox.Row, o: Outcome, now: int, backoff: nat) {
    match o
    case Published => row == Outbox.Row(Outbox.Published, was.attempts + 1, None, was.nextAttempt, was.grant)
    case Failed => row == Outbox.Row(Outbox.Failed, was.attempts + 1, None, was.nextAttempt, was.grant)
    case Retrying => row == Outbox.Row(Outbox.Pending, was.attempts + 1, None, now + backoff, was.grant)
    case LeaseLost => false
  }

  /** One message under a lease that outlasts the window by the reserve, whatever others do. */
  lemma TrialIsExact(me: Owner, deadline: int, t: Outbox.Table, now: int, trip: Trip, id: EventId, until: int)
    requires now < deadline && trip.stored && Timely(me, trip) && until >= deadline + Outbox.SETTLEMENT_RESERVE
    requires Held(t, id, me, until)
    ensures var (after, end, outcome) := Trial(me, deadline, t, now, id, trip);
            && AnsweredAs(outcome, trip, now, deadline)
            && id in after && RowAs(after[id], t[id], outcome, end, trip.backoff)
  {
    ArrivesInTime(me, deadline, t, now, trip, id, until);
  }

  /** In general a settlement is lost exactly when the row is not leased to this relay any more by the
      time it is executed; otherwise the outcome is what the broker answered. */
  lemma LeaseLostIff(me: Owner, deadline: int, t: Outbox.Table, now: int, trip: Trip, id: EventId)
    requires now < deadline && trip.stored
    ensures var (before, n) := Arrived(t, now, Budget(now, deadline), trip);
            var (after, end, outcome) := Trial(me, deadline, t, now, id, trip);
            && (outcome.LeaseLost? <==>
                !(id in before && before[id].lock.Some? && before[id].lock.value.owner == me
                  && n < before[id].lock.value.until))
            && (outcome.LeaseLost? ==> after == before)
            && (!outcome.LeaseLost? ==> AnsweredAs(outcome, trip, now, deadline))
  {
  }

  /** The clock when the `k`-th message of the rest of a batch is published. */
  function Clock(now: int, deadline: int, trips: seq<Trip>, i: nat, k: nat): int
    requires i + k <= |trips|
    decreases k
  {
    if k == 0 then now
    else
      var window := if deadline - now < 5_000_000_000 then deadline - now else 5_000_000_000;
      var spent := if Elapsed(trips[i].during) <= window then Elapsed(trips[i].during) else window;
      Clock(now + spent + Elapsed(trips[i].before), deadline, trips, i + 1, k - 1)
  }

  /** Every outcome of a batch is what the broker answered to its message, in time or not, unless the
      lease was lost by then; and `NoLeaseLost` says when none is. */
  lemma {:induction false} OutcomesAreExact(
    me: Owner, deadline: int, t: Outbox.Table, now: int, ids: seq<EventId>, trips: seq<Trip>, i: nat)
    requires i <= |ids| <= |trips|
    ensures var os := Cycle(me, deadline, t, now, ids, trips, i).outcomes;
            && |os| <= |ids| - i
            && forall k | 0 <= k < |os| :: ExactAt(os, k, deadline, now, trips, i)
    decreases |ids| - i
  {
    if i < |ids| && !trips[i].cancelled && now < deadline && trips[i].stored {
      var (t1, n1, outcome) := Trial(me, deadline, t, now, ids[i], trips[i]);
      LeaseLostIff(me, deadline, t, now, trips[i], ids[i]);
      OutcomesAreExact(me, deadline, t1, n1, ids, trips, i + 1);
      ExactFront(outcome, Cycle(me, deadline, t1, n1, ids, trips, i + 1).outcomes, deadline, now, n1, trips, i, i + 1);
    }
  }

  predicate ExactAt(os: seq<Outcome>, k: nat, deadline: int, now: int, trips: seq<Trip>, i: nat) {
    k < |os| && i + k < |trips|
    && (os[k].LeaseLost? || AnsweredAs(os[k], trips[i + k], Clock(now, deadline, trips, i, k), deadline))
  }

  lemma ExactFront(
    o: Outcome, os: seq<Outcome>, deadline: int, now: int, next: int, trips: seq<Trip>, i: nat, j: nat)
    requires j == i + 1 && i + |os| < |trips| && ExactAt([o], 0, deadline, now, trips, i)
    requires next == Clock(now, deadline, trips, i, 1)
    requires forall k | 0 <= k < |os| :: ExactAt(os, k, deadline, next, trips, j)
    ensures forall k | 0 <= k < |os| + 1 :: ExactAt([o] + os, k, deadline, now, trips, i)
  {
    forall k | 0 <= k < |os| + 1 ensures ExactAt([o] + os, k, deadline, now, trips, i) {
      if k > 0 { assert ExactAt(os, k - 1, deadline, next, trips, j); }
    }
  }

  /** One message leaves the leases of the others alone. */
  lemma RestIsHeld(
    me: Owner, deadline: int, t: Outbox.Table, now: int, ids: seq<EventId>, trips: seq<Trip>, i: nat, until: int)
    requires i < |ids| <= |trips| && Distinct(ids) && now < deadline && Timely(me, trips[i])
    requires until >= deadline + Outbox.SETTLEMENT_RESERVE
    requires forall j | i <= j < |ids| :: Held(t, ids[j], me, until)
    ensures forall j | i < j < |ids| :: Held(Trial(me, deadline, t, now, ids[i], trips[i]).0, ids[j], me, until)
  {
    forall j | i < j < |ids| ensures Held(Trial(me, deadline, t, now, ids[i], trips[i]).0, ids[j], me, until) {
      ArrivesInTime(me, deadline, t, now, trips[i], ids[j], until);
    }
  }

  // ---- When the broker acknowledges everything -----------------------------------------------------

  /** Nobody replays the row. */
  predicate Unreplayed(id: EventId, fs: seq<Foreign>) { forall f | f in fs :: f.op != Replay(id) }

  predicate Closed(t: Outbox.Table, id: EventId) { id in t && t[id].status.Published? && t[id].lock.None? }

  lemma {:induction false} ClosedStays(t: Outbox.Table, now: int, fs: seq<Foreign>, id: EventId)
    requires Closed(t, id) && Unreplayed(id, fs)
    ensures Closed(RunForeign(t, now, fs), id)
    decreases |fs|
  {
    if fs != [] {
      assert fs[0] in fs;
      ClosedStays(Apply(t, now + fs[0].wait, fs[0].op), now + fs[0].wait, fs[1..], id);
    }
  }

  predicate UnreplayedIn(id: EventId, trips: seq<Trip>) {
    forall trip | trip in trips :: Unreplayed(id, trip.during) && Unreplayed(id, trip.before)
  }

  lemma TrialKeepsClosed(
    me: Owner, deadline: int, t: Outbox.Table, now: int, other: EventId, trip: Trip, id: EventId)
    requires now < deadline && Closed(t, id) && id != other
    requires Unreplayed(id, trip.during) && Unreplayed(id, trip.before)
    ensures Closed(Trial(me, deadline, t, now, other, trip).0, id)
  {
    var during := Within(trip.during, Budget(now, deadline));
    ClosedStays(t, now, during, id);
    ClosedStays(RunForeign(t, now, during), now + Elapsed(during), trip.before, id);
  }

  /** A published row stays published to the end of the cycle. */
  lemma {:induction false} CycleKeepsClosed(
    me: Owner, deadline: int, t: Outbox.Table, now: int, ids: seq<EventId>, trips: seq<Trip>, i: nat, id: EventId)
    requires i <= |ids| <= |trips| && Closed(t, id) && id !in ids[i..] && UnreplayedIn(id, trips)
    ensures Closed(Cycle(me, deadline, t, now, ids, trips, i).table, id)
    decreases |ids| - i
  {
    if i < |ids| && !trips[i].cancelled && now < deadline {
      assert trips[i] in trips && ids[i] == ids[i..][0];
      TrialKeepsClosed(me, deadline, t, now, ids[i], trips[i], id);
      assert forall x | x in ids[i + 1..] :: x in ids[i..];
      var (t1, n1, _) := Trial(me, deadline, t, now, ids[i], trips[i]);
      if trips[i].stored { CycleKeepsClosed(me, deadline, t1, n1, ids, trips, i + 1, id); }
    }
  }

  /** The broker acknowledges the message within the budget, and the database answers. */
  predicate Smooth(trip: Trip) {
    !trip.cancelled && trip.stored && trip.result.Acked? && Elapsed(trip.during) <= 5_000_000_000
  }

  /** When the broker acknowledges every message in time, and the delays fit into the lease, every message
      of the batch is published and so is every row. */
  lemma {:induction false} AllArePublished(
    me: Owner, deadline: int, t: Outbox.Table, now: int, ids: seq<EventId>, trips: seq<Trip>, i: nat, until: int)
    requires i <= |ids| <= |trips| && Distinct(ids) && until >= deadline + Outbox.SETTLEMENT_RESERVE
    requires forall trip | trip in trips :: Timely(me, trip) && Smooth(trip)
    requires forall id | id in ids :: UnreplayedIn(id, trips)
    requires forall j | i <= j < |ids| :: Held(t, ids[j], me, until)
    requires now + (|ids| - i) * 5_000_000_000 + Delays(trips, i, |ids|) <= deadline
    ensures var end := Cycle(me, deadline, t, now, ids, trips, i);
            && !end.failed && |end.outcomes| == |ids| - i && (forall o | o in end.outcomes :: o.Published?)
            && forall j | i <= j < |ids| :: Closed(end.table, ids[j])
    decreases |ids| - i
  {
    if i < |ids| {
      assert trips[i] in trips && ids[i] in ids;
      var (t1, n1, outcome) := Trial(me, deadline, t, now, ids[i], trips[i]);
      TrialIsExact(me, deadline, t, now, trips[i], ids[i], until);
      RestIsHeld(me, deadline, t, now, ids, trips, i, until);
      AllArePublished(me, deadline, t1, n1, ids, trips, i + 1, until);
      CycleKeepsClosed(me, deadline, t1, n1, ids, trips, i + 1, ids[i]);
    }
  }

  function Delays(trips: seq<Trip>, i: nat, n: nat): nat
    requires i <= n <= |trips|
    decreases n - i
  {
    if i == n then 0 else Elapsed(trips[i].before) + Delays(trips, i + 1, n)
  }

  /** What the configured lower bound on the lease buys: when the database delays fit into what
      the lease leaves over a full publish budget per message, the whole batch is attempted. */
  lemma {:induction false} WholeBatchAttempted(
    me: Owner, deadline: int, t: Outbox.Table, now: int, ids: seq<EventId>, trips: seq<Trip>, i: nat)
    requires i <= |ids| <= |trips|
    requires forall trip | trip in trips :: !trip.cancelled && trip.stored
    requires now + (|ids| - i) * Outbox.PUBLISH_BUDGET + Delays(trips, i, |ids|) <= deadline
    ensures var end := Cycle(me, deadline, t, now, ids, trips, i); |end.outcomes| == |ids| - i && !end.failed
    decreases |ids| - i
  {
    if i < |ids| {
      assert trips[i] in trips;
      var (t1, n1, outcome) := Trial(me, deadline, t, now, ids[i], trips[i]);
      assert n1 <= now + Outbox.PUBLISH_BUDGET + Elapsed(trips[i].before);
      WholeBatchAttempted(me, deadline, t1, n1, ids, trips, i + 1);
    }
  }

  lemma LeasedAreHeld(t: Outbox.Table, ids: seq<EventId>, me: Owner, until: int)
    requires forall x | x in ids :: x in t
    ensures forall j | 0 <= j < |ids| :: Held(Outbox.LeaseAll(t, Elements(ids), me, until), ids[j], me, until)
  {
  }

  lemma NoneIsLost(
    me: Owner, deadline: int, t: Outbox.Table, now: int, ids: seq<EventId>, trips: seq<Trip>, until: int)
    requires Distinct(ids) && |ids| <= |trips| && until >= deadline + Outbox.SETTLEMENT_RESERVE
    requires forall trip | trip in trips :: Timely(me, trip)
    requires forall j | 0 <= j < |ids| :: Held(t, ids[j], me, until)
    ensures var os := Cycle(me, deadline, t, now, ids, trips, 0).outcomes;
            LeaseLost !in os && TallyOf(|ids|, os).leasesLost == 0
  {
    NoLeaseLost(me, deadline, t, now, ids, trips, 0, until);
    CountAbsent(Cycle(me, deadline, t, now, ids, trips, 0).outcomes, LeaseLost);
  }

  /** A whole cycle, from the claim on: for every skew, every batch and every interference, no
      lease is lost. */
  lemma CycleNeverLosesLease(
    me: Owner, start: int, leaseDuration: int, t: Outbox.Table, claiming: seq<Foreign>, ids: seq<EventId>,
    trips: seq<Trip>)
    requires Distinct(ids) && |ids| <= |trips|
    requires forall x | x in ids :: x in t
    requires forall trip | trip in trips :: Timely(me, trip)
    ensures var n := start + Elapsed(claiming);
            var leased := Outbox.LeaseAll(t, Elements(ids), me, n + leaseDuration);
            var end := Cycle(me, start + leaseDuration - Outbox.SETTLEMENT_RESERVE, leased, n, ids, trips, 0);
            LeaseLost !in end.outcomes && TallyOf(|ids|, end.outcomes).leasesLost == 0
  {
    var n := start + Elapsed(claiming);
    var leased := Outbox.LeaseAll(t, Elements(ids), me, n + leaseDuration);
    var deadline := start + leaseDuration - Outbox.SETTLEMENT_RESERVE;
    LeasedAreHeld(t, ids, me, n + leaseDuration);
    NoneIsLost(me, deadline, leased, n, ids, trips, n + leaseDuration);
  }

  lemma PublishesAll(
    me: Owner, deadline: int, t: Outbox.Table, now: int, ids: seq<EventId>, trips: seq<Trip>, until: int)
    requires Distinct(ids) && |ids| <= |trips| && until >= deadline + Outbox.SETTLEMENT_RESERVE
    requires forall trip | trip in trips :: Timely(me, trip) && Smooth(trip)
    requires forall id | id in ids :: UnreplayedIn(id, trips)
    requires forall j | 0 <= j < |ids| :: Held(t, ids[j], me, until)
    requires now + |ids| * 5_000_000_000 + Delays(trips, 0, |ids|) <= deadline
    ensures var end := Cycle(me, deadline, t, now, ids, trips, 0);
            && TallyOf(|ids|, end.outcomes) == Tally(|ids|, |ids|, 0, 0, 0)
            && forall id | id in ids :: id in end.table && end.table[id].status.Published?
  {
    AllArePublished(me, deadline, t, now, ids, trips, 0, until);
    CountAll(Cycle(me, deadline, t, now, ids, trips, 0).outcomes);
  }

  /** A whole cycle with a broker that acknowledges everything in time: the counters say that every
      leased message was published, and every row is. */
  lemma CyclePublishesAll(
    me: Owner, start: int, leaseDuration: int, t: Outbox.Table, claiming: seq<Foreign>, ids: seq<EventId>,
    trips: seq<Trip>)
    requires Distinct(ids) && |ids| <= |trips| && forall x | x in ids :: x in t
    requires forall trip | trip in trips :: Timely(me, trip) && Smooth(trip)
    requires forall id | id in ids :: UnreplayedIn(id, trips)
    requires Elapsed(claiming) + |ids| * 5_000_000_000 + Delays(trips, 0, |ids|) + 5_000_000_000 <= leaseDuration
    ensures var n := start + Elapsed(claiming);
            var leased := Outbox.LeaseAll(t, Elements(ids), me, n + leaseDuration);
            var end := Cycle(me, start + leaseDuration - Outbox.SETTLEMENT_RESERVE, leased, n, ids, trips, 0);
            && TallyOf(|ids|, end.outcomes) == Tally(|ids|, |ids|, 0, 0, 0)
            && forall id | id in ids :: id in end.table && end.table[id].status.Published?
  {
    var n := start + Elapsed(claiming);
    var leased := Outbox.LeaseAll(t, Elements(ids), me, n + leaseDuration);
    var deadline := start + leaseDuration - Outbox.SETTLEMENT_RESERVE;
    LeasedAreHeld(t, ids, me, n + leaseDuration);
    PublishesAll(me, deadline, leased, n, ids, trips, n + leaseDuration);
  }

  lemma {:induction false} CountAll(os: seq<Outcome>)
    requires forall o | o in os :: o.Published?
    ensures Count(os, Published) == |os| && Count(os, Retrying) == Count(os, Failed) == Count(os, LeaseLost) == 0
  {
    if os != [] {
      assert os[0] in os;
      CountAll(os[1..]);
    }
  }

  lemma {:induction false} CountAbsent(os: seq<Outcome>, o: Outcome)
    ensures Count(os, o) == 0 <==> o !in os
  {
    if os != [] { CountAbsent(os[1..], o); }
  }
}
