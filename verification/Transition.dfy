/** The transition matrix of a payment and one of its attempts (internal/domain/payments). */
module Transition {
  import opened Common

  datatype Outcome = Succeeded | Pending | Failed | Expired | Unknown

  datatype Status =
    | Pending | Processing | Succeeded | Failed | Cancelled
    | PartiallyRefunded | Refunded

  datatype AttemptStatus = Created | Pending | Succeeded | Failed | Expired | Cancelled

  datatype Decision = Apply | NoOp | Conflict

  /** What one event does to the aggregate; `None` leaves that entity where it is. */
  datatype Transition = Transition(
    decision: Decision,
    attempt: Option<AttemptStatus>,
    payment: Option<Status>,
    orderPaid: bool)

  const IGNORED := Transition(NoOp, None, None, false)
  const REFUSED := Transition(Conflict, None, None, false)

  predicate AttemptSettled(a: AttemptStatus) {
    a.Succeeded? || a.Failed? || a.Expired? || a.Cancelled?
  }

  predicate PaymentSettled(p: Status) {
    p.Succeeded? || p.Failed? || p.Cancelled? || p.PartiallyRefunded? || p.Refunded?
  }

  function Decide(o: Outcome, p: Status, a: AttemptStatus): Transition {
    match o
    case Succeeded => DecideSucceeded(p, a)
    case Pending => DecidePending(p, a)
    case Failed => DecideFailed(p, a)
    case Expired => DecideExpired(p, a)
    case Unknown => REFUSED
  }

  function DecideSucceeded(p: Status, a: AttemptStatus): Transition {
    if p.Succeeded? && a.Succeeded? then IGNORED
    else if p.PartiallyRefunded? || p.Refunded? then IGNORED
    else if PaymentSettled(p) then REFUSED
    else if a.Succeeded? then Transition(Apply, None, Some(Status.Succeeded), true)
    else if AttemptSettled(a) then REFUSED
    else Transition(Apply, Some(AttemptStatus.Succeeded), Some(Status.Succeeded), true)
  }

  function DecidePending(p: Status, a: AttemptStatus): Transition {
    if PaymentSettled(p) then IGNORED
    else if p.Processing? then IGNORED
    else if AttemptSettled(a) then IGNORED
    else Transition(Apply, None, Some(Status.Processing), false)
  }

  function DecideFailed(p: Status, a: AttemptStatus): Transition {
    if p.Failed? && a.Failed? then IGNORED
    else if p.Succeeded? then IGNORED
    else if PaymentSettled(p) then IGNORED
    else if a.Failed? then Transition(Apply, None, Some(Status.Failed), false)
    else if AttemptSettled(a) then IGNORED
    else Transition(Apply, Some(AttemptStatus.Failed), Some(Status.Failed), false)
  }

  function DecideExpired(p: Status, a: AttemptStatus): Transition {
    if AttemptSettled(a) then IGNORED
    else if PaymentSettled(p) then IGNORED
    else Transition(Apply, Some(AttemptStatus.Expired), None, false)
  }

  // ---- The matrix as three questions ---------------------------------------------------

  /** The event still has something to do: the payment is not settled, and the attempt is open or is
      where the event would take it. */
  predicate Lands(o: Outcome, p: Status, a: AttemptStatus) {
    match o
    case Succeeded => (p.Pending? || p.Processing?) && (a.Created? || a.Pending? || a.Succeeded?)
    case Pending => p.Pending? && (a.Created? || a.Pending?)
    case Failed => (p.Pending? || p.Processing?) && (a.Created? || a.Pending? || a.Failed?)
    case Expired => (p.Pending? || p.Processing?) && (a.Created? || a.Pending?)
    case Unknown => false
  }

  /** Where it takes payment and attempt. */
  function Landing(o: Outcome, p: Status, a: AttemptStatus): (Status, AttemptStatus) {
    match o
    case Succeeded => (Status.Succeeded, AttemptStatus.Succeeded)
    case Pending => (Status.Processing, a)
    case Failed => (Status.Failed, AttemptStatus.Failed)
    case Expired => (p, AttemptStatus.Expired)
    case Unknown => (p, a)
  }

  /** Money that nobody expects: a success where another attempt paid, or the payment or the attempt
      was closed without one. A refunded payment was paid before. */
  predicate Contradicts(o: Outcome, p: Status, a: AttemptStatus) {
    || o.Unknown?
    || (o.Succeeded? && (p.Failed? || p.Cancelled? || (p.Succeeded? && !a.Succeeded?)))
    || (o.Succeeded? && (p.Pending? || p.Processing?) && (a.Failed? || a.Expired? || a.Cancelled?))
  }

  /** The matrix, cell by cell: it applies exactly what still has something to do, reaching exactly that
      state; it escalates exactly unexpected money; and it ignores the rest. */
  lemma DecideAnswers(o: Outcome, p: Status, a: AttemptStatus)
    ensures Decide(o, p, a).decision.Apply? <==> Lands(o, p, a)
    ensures Decide(o, p, a).decision.Conflict? <==> Contradicts(o, p, a)
    ensures Lands(o, p, a) ==> After(Decide(o, p, a), p, a) == Landing(o, p, a)
    ensures Decide(o, p, a).orderPaid <==> o.Succeeded? && Lands(o, p, a)
    ensures !Lands(o, p, a) ==> Decide(o, p, a).attempt.None? && Decide(o, p, a).payment.None?
  {
  }

  // ---- How statuses may evolve --------------------------------------------------------

  /** A payment never leaves a settled state and never returns to `Pending`. */
  predicate PaymentMoves(p: Status, q: Status) {
    p == q || (!PaymentSettled(p) && !q.Pending? && !q.PartiallyRefunded? && !q.Refunded?)
  }

  /** An attempt never leaves a settled state and only succeeds under an unsettled payment. */
  predicate AttemptMoves(p: Status, a: AttemptStatus, b: AttemptStatus) {
    a == b || (!AttemptSettled(a) && !b.Created? && (b.Succeeded? ==> !PaymentSettled(p)))
  }

  /** One move of a payment together with one of its attempts; the payment may have been
      moved through another attempt. */
  predicate Moves(p: Status, a: AttemptStatus, q: Status, b: AttemptStatus) {
    PaymentMoves(p, q) && AttemptMoves(p, a, b)
  }

  function After(t: Transition, p: Status, a: AttemptStatus): (Status, AttemptStatus) {
    (if t.payment.Some? then t.payment.value else p,
     if t.attempt.Some? then t.attempt.value else a)
  }

  lemma DecideMoves(o: Outcome, p: Status, a: AttemptStatus)
    ensures var (q, b) := After(Decide(o, p, a), p, a); Moves(p, a, q, b)
  {
  }

  /** A verdict that writes nothing is final: no later evolution turns a no-op or a conflict
      into anything else. This is what makes a state conflict a terminal error. */
  lemma VerdictStable(o: Outcome, p: Status, a: AttemptStatus, q: Status, b: AttemptStatus)
    requires Moves(p, a, q, b)
    ensures Decide(o, p, a).decision.NoOp? ==> Decide(o, q, b).decision.NoOp?
    ensures Decide(o, p, a).decision.Conflict? ==> Decide(o, q, b).decision.Conflict?
  {
  }

  /** An applied outcome immediately becomes a no-op of the same outcome. */
  lemma AppliedThenNoOp(o: Outcome, p: Status, a: AttemptStatus)
    requires Decide(o, p, a).decision.Apply?
    ensures var (q, b) := After(Decide(o, p, a), p, a); Decide(o, q, b).decision.NoOp?
  {
  }

  /** Refunds would break the stability of a conflict, which is why no refund step exists here:
      under a succeeded payment every success event is a conflict unless its own attempt succeeded,
      and a refund turns each of these conflicts into a no-op. */
  lemma RefundBreaksConflict(a: AttemptStatus, refunded: Status)
    requires refunded.PartiallyRefunded? || refunded.Refunded?
    ensures Decide(Outcome.Succeeded, Status.Succeeded, a).decision.Conflict? <==> !a.Succeeded?
    ensures Decide(Outcome.Succeeded, refunded, a).decision.NoOp?
  {
  }

  // ---- Any order of events on a single attempt ----------------------------------------

  datatype Pair = Pair(payment: Status, attempt: AttemptStatus)

  function React(s: Pair, o: Outcome): Pair {
    var (q, b) := After(Decide(o, s.payment, s.attempt), s.payment, s.attempt);
    Pair(q, b)
  }

  /** The aggregate after a whole sequence of events, one transition at a time. */
  function Fold(s: Pair, os: seq<Outcome>): Pair {
    if os == [] then s else React(Fold(s, os[..|os| - 1]), os[|os| - 1])
  }

  predicate Closes(o: Outcome) { o.Succeeded? || o.Failed? || o.Expired? }

  /** Position of the first event that closes an attempt, or the length when there is none. */
  function FirstCloser(os: seq<Outcome>): (k: nat)
    ensures k <= |os|
    ensures forall i | 0 <= i < k :: !Closes(os[i])
    ensures k < |os| ==> Closes(os[k])
  {
    if os == [] then 0 else
      var k := FirstCloser(os[..|os| - 1]);
      if k < |os| - 1 || Closes(os[|os| - 1]) then k else |os|
  }

  /** The closed form: only the first closing event, and whether a pending event came before
      it, matter. */
  function ClosedForm(a: AttemptStatus, os: seq<Outcome>): Pair {
    var k := FirstCloser(os);
    var open := if Outcome.Pending in os[..k] then Status.Processing else Status.Pending;
    if k == |os| then Pair(open, a)
    else match os[k]
      case Succeeded => Pair(Status.Succeeded, AttemptStatus.Succeeded)
      case Failed => Pair(Status.Failed, AttemptStatus.Failed)
      case _ => Pair(open, AttemptStatus.Expired)
  }

  /** Reordering theorem: the folded matrix is its closed form, for every event sequence. */
  lemma {:induction false} FoldIsClosedForm(a: AttemptStatus, os: seq<Outcome>)
    requires !AttemptSettled(a)
    ensures Fold(Pair(Status.Pending, a), os) == ClosedForm(a, os)
  {
    if os != [] {
      var n := |os| - 1;
      var init := os[..n];
      FoldIsClosedForm(a, init);
      var k := FirstCloser(init);
      if k < n {
        assert os[..k] == init[..k];
      } else {
        assert init[..n] == init;
        assert os[..n + 1] == init + [os[n]];
      }
    }
  }

  /** Conflicts are exactly the success events that arrive after a negative first closer
      (and outcomes the matrix does not know). */
  lemma ConflictsCharacterised(a: AttemptStatus, os: seq<Outcome>, i: nat)
    requires !AttemptSettled(a) && i < |os|
    ensures var s := Fold(Pair(Status.Pending, a), os[..i]);
            var k := FirstCloser(os);
            Decide(os[i], s.payment, s.attempt).decision.Conflict?
            <==> os[i].Unknown? || (os[i].Succeeded? && k < i && !os[k].Succeeded?)
  {
    FoldIsClosedForm(a, os[..i]);
    var k, j := FirstCloser(os), FirstCloser(os[..i]);
    assert forall m | 0 <= m < i :: os[m] == os[..i][m];
    assert j < i ==> k == j;
  }
}
