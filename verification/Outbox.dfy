/** The transactional outbox: one row per handled event, moved only by single statements that
    read one database clock. */
module Outbox {
  import opened Common

  // The time kept back from a lease for settling, and the most one publication may take.
  const SETTLEMENT_RESERVE: int := 5_000_000_000
  const PUBLISH_BUDGET: int := 5_000_000_000

  datatype Status = Pending | Publishing | Published | Failed

  /** `locked_by` and `locked_until`, which every statement sets or clears together. */
  datatype Lock = Lock(owner: Owner, until: int)

  /** `grant` is history: how many times the row has been leased. */
  datatype Row = Row(status: Status, attempts: nat, lock: Option<Lock>, nextAttempt: int, grant: nat)

  type Table = map<EventId, Row>

  datatype Outcome = MarkPublished | MarkRetryable(backoff: int) | MarkFailed

  function NewRow(now: int): Row { Row(Pending, 0, None, now, 0) }

  /** A row is due when pending past its backoff, or leased and never settled in time. */
  predicate Due(r: Row, now: int) {
    r.nextAttempt <= now
    && (r.status.Pending? || (r.status.Publishing? && r.lock.Some? && r.lock.value.until <= now))
  }

  function LeaseRow(r: Row, owner: Owner, until: int): Row {
    r.(status := Publishing, lock := Some(Lock(owner, until)), grant := r.grant + 1)
  }

  /** Every settlement statement matches on this: `locked_by = owner AND locked_until > now()`. */
  predicate Holds(r: Row, owner: Owner, now: int) {
    r.lock.Some? && r.lock.value.owner == owner && r.lock.value.until > now
  }

  function SettleRow(r: Row, how: Outcome, now: int): Row {
    match how
    case MarkPublished => r.(status := Published, attempts := r.attempts + 1, lock := None)
    case MarkRetryable(backoff) =>
      r.(status := Pending, attempts := r.attempts + 1, lock := None, nextAttempt := now + backoff)
    case MarkFailed => r.(status := Failed, attempts := r.attempts + 1, lock := None)
  }

  /** The settlement statement together with the number of rows it affected. */
  function Settle(t: Table, id: EventId, owner: Owner, how: Outcome, now: int): (Table, nat) {
    if id in t && Holds(t[id], owner, now) then (t[id := SettleRow(t[id], how, now)], 1) else (t, 0)
  }

  function LeaseAll(t: Table, ids: set<EventId>, owner: Owner, until: int): Table {
    map id | id in t :: if id in ids then LeaseRow(t[id], owner, until) else t[id]
  }

  /** Nobody else is at it: the row waits past its backoff, or its lease ran out unsettled. */
  predicate Claimable(r: Row, now: int) {
    || (r.status == Pending && r.nextAttempt <= now)
    || (r.status == Publishing && r.nextAttempt <= now && r.lock.Some? && r.lock.value.until <= now)
  }

  /** What a claim takes: claimable rows nobody has locked, as many as fit the batch, the earliest first. */
  ghost predicate EarliestDue(t: Table, now: int, locked: set<EventId>, batchSize: nat, ids: seq<EventId>) {
    && Distinct(ids) && |ids| <= batchSize
    && (forall x | x in ids :: x in t && x !in locked && Claimable(t[x], now))
    && (forall x | x in t && x !in locked && Claimable(t[x], now) && x !in ids ::
          |ids| == batchSize && forall y | y in ids :: t[y].nextAttempt <= t[x].nextAttempt)
  }

  /** What a claim leaves: its rows are publishing under the owner until the deadline, with their count
      and their backoff as they were, and the other rows are untouched. */
  ghost predicate Stamped(t: Table, after: Table, ids: seq<EventId>, owner: Owner, until: int) {
    && after.Keys == t.Keys
    && (forall x | x in t && x in ids ::
          after[x] == Row(Publishing, t[x].attempts, Some(Lock(owner, until)), t[x].nextAttempt, t[x].grant + 1))
    && (forall x | x in t && x !in ids :: after[x] == t[x])
  }

  /** What a settlement leaves under a lease of the owner that has not expired: one attempt more, no lock,
      and the status of the outcome; without such a lease, nothing. */
  ghost predicate SettledAs(t: Table, after: Table, id: EventId, owner: Owner, how: Outcome, now: int, affected: nat) {
    if id in t && t[id].lock.Some? && t[id].lock.value.owner == owner && now < t[id].lock.value.until then
      && affected == 1
      && after == t[id := Row(if how.MarkPublished? then Published else if how.MarkFailed? then Failed else Pending,
                              t[id].attempts + 1, None,
                              if how.MarkRetryable? then now + how.backoff else t[id].nextAttempt, t[id].grant)]
    else affected == 0 && after == t
  }

  /** ResetOutboxForReplay matches only `published` and `failed` rows. */
  predicate Resettable(r: Row) { r.status.Published? || r.status.Failed? }

  function ResetRow(r: Row, now: int): Row {
    r.(status := Pending, attempts := 0, lock := None, nextAttempt := now)
  }

  /** The lease check constraint of the table. */
  predicate LeaseCheck(r: Row) { r.status.Publishing? <==> r.lock.Some? }
}
