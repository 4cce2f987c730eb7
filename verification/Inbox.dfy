/** The durable inbox of provider events: rows, and the statements that move them. */
module Inbox {

  datatype Status = Pending | Processing | Processed | Failed | Skipped

  /** `providerKey` stands for (provider, provider_event_id), the deduplication key. */
  datatype Row = Row(providerKey: nat, status: Status, attempts: nat, replays: nat)

  datatype Disposition = Done | Retry | Dead

  /** A handled event starts pending, any other is stored as skipped. */
  function NewRow(providerKey: nat, handled: bool): Row {
    Row(providerKey, if handled then Pending else Skipped, 0, 0)
  }

  /** MarkWebhookEventProcessed: guarded by `status <> 'processed'`. */
  function MarkProcessed(r: Row): Row {
    if r.status.Processed? then r else r.(status := Processed, attempts := r.attempts + 1)
  }

  /** RecordWebhookEventFailure: has no status guard, so even a processed row may become failed. */
  function RecordFailure(r: Row, terminal: bool, maxAttempts: nat): Row {
    r.(attempts := r.attempts + 1,
       status := if terminal || r.attempts + 1 >= maxAttempts then Failed else r.status)
  }

  /** What `classify` answers from what the failure record returned; an event without an inbox
      row is reported as `(0, true)`. */
  function Classify(attempts: nat, failed: bool): Disposition {
    if attempts == 0 || failed then Dead else Retry
  }

  /** ResetWebhookEventForReplay: matches pending and failed rows, and rewinds only a failed one. */
  function ResetForReplay(r: Row): Row {
    if r.status.Failed? then r.(status := Pending, attempts := 0, replays := r.replays + 1)
    else r.(replays := r.replays + 1)
  }

  /** A row after a series of failures, each terminal or not. */
  function Failures(r: Row, ts: seq<bool>, maxAttempts: nat): Row {
    if ts == [] then r else RecordFailure(Failures(r, ts[..|ts| - 1], maxAttempts), ts[|ts| - 1], maxAttempts)
  }

  /** Every failure counts, and the row fails with the first one that is terminal or spends the
      budget; until then its status is left alone, and a failed row stays failed. */
  lemma {:induction false} FailuresClosedForm(r: Row, ts: seq<bool>, maxAttempts: nat)
    ensures var after := Failures(r, ts, maxAttempts);
            && after.attempts == r.attempts + |ts| && after.providerKey == r.providerKey && after.replays == r.replays
            && (r.status.Failed? ==> after.status.Failed?)
            && (!r.status.Failed? ==>
                if true in ts || (ts != [] && r.attempts + |ts| >= maxAttempts)
                then after.status.Failed? else after.status == r.status)
  {
    if ts != [] {
      FailuresClosedForm(r, ts[..|ts| - 1], maxAttempts);
      assert ts == ts[..|ts| - 1] + [ts[|ts| - 1]];
    }
  }

  /** What a caller learns from one recorded failure: the count is positive, and the row is closed
      exactly when it already was, the cause is terminal or the budget is spent; so the answer to
      the broker is a retry exactly while the row is open. */
  lemma FailureAnswer(r: Row, terminal: bool, maxAttempts: nat)
    ensures var after := RecordFailure(r, terminal, maxAttempts);
            && after.attempts >= 1
            && (after.status.Failed? <==> r.status.Failed? || terminal || after.attempts >= maxAttempts)
            && (Classify(after.attempts, after.status.Failed?).Retry? <==> !after.status.Failed?)
  {
  }
}
