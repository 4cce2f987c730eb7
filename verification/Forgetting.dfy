/** What it means for a caller that the limiter forgets its bucket and hands it a fresh one. */
module Forgetting {
  import opened Common
  import opened Bucket

  /** No later call that `b` would have admitted is refused by `other`. */
  ghost predicate NeverWorse(p: Policy, b: State, other: State, t: int)
    requires Valid(p)
  {
    forall ts, i | From(t, ts) && 0 <= i < |ts| ::
      Decisions(p, b, ts)[i].allowed ==> Decisions(p, other, ts)[i].allowed
  }

  /** Nobody can tell the two apart. */
  ghost predicate Indistinguishable(p: Policy, b: State, other: State, t: int)
    requires Valid(p)
  {
    forall ts | From(t, ts) :: Decisions(p, b, ts) == Decisions(p, other, ts)
  }

  // ---- Calls at one instant --------------------------------------------------------------------------

  lemma {:induction false} DecisionsThenOne(p: Policy, b: State, ts: seq<int>, t: int)
    requires Valid(p)
    ensures Decisions(p, b, ts + [t])
            == Decisions(p, b, ts) + [Take(p, After(p, b, ts), t).1]
    decreases |ts|
  {
    if ts == [] {
      assert [t][1..] == [] && Decisions(p, Take(p, b, t).0, []) == [];
    } else {
      DecisionsThenOne(p, Take(p, b, ts[0]).0, ts[1..], t);
      assert (ts + [t])[1..] == ts[1..] + [t];
    }
  }

  /** Updating the credit early changes nothing later. */
  lemma EarlyRefill(p: Policy, b: State, t: int, ts: seq<int>)
    requires Valid(p) && Ok(p, b) && b.updatedAt <= t && From(t, ts)
    ensures Decisions(p, State(Refill(p, b, t), t), ts) == Decisions(p, b, ts)
  {
    if ts != [] { RefillInTwoSteps(p, b, t, ts[0]); }
  }

  lemma EarlyRefillAfter(p: Policy, b: State, t: int, ts: seq<int>)
    requires Valid(p) && Ok(p, b) && b.updatedAt <= t && From(t, ts) && ts != []
    ensures After(p, State(Refill(p, b, t), t), ts) == After(p, b, ts)
  {
    RefillInTwoSteps(p, b, t, ts[0]);
  }

  lemma {:induction false} SpendAll(p: Policy, x: int, t: int, n: nat)
    requires Valid(p) && 0 <= x < (n + 1) * TokenInterval(p)
    ensures After(p, State(x, t), Repeat(t, n)) == State(x % TokenInterval(p), t)
  {
    FullIsWithinInterval(p);
    if n == 0 {
      Quotient(x, 0, x, TokenInterval(p));
    } else {
      var y := SpendOne(p, x, t, n);
      OneLess(x, y, n, TokenInterval(p));
      SpendAll(p, y, t, n - 1);
    }
  }

  lemma SpendOne(p: Policy, x: int, t: int, n: nat) returns (y: int)
    requires Valid(p) && n > 0
    ensures y == if x >= TokenInterval(p) then x - TokenInterval(p) else x
    ensures After(p, State(x, t), Repeat(t, n)) == After(p, State(y, t), Repeat(t, n - 1))
  {
    y := if x >= TokenInterval(p) then x - TokenInterval(p) else x;
    assert Repeat(t, n)[1..] == Repeat(t, n - 1);
  }

  lemma OneLess(x: int, y: int, n: nat, tau: int)
    requires tau > 0 && n > 0 && 0 <= x < (n + 1) * tau && y == if x >= tau then x - tau else x
    ensures 0 <= y < n * tau && y % tau == x % tau
  {
    assert (n + 1) * tau == n * tau + tau;
    if x >= tau { Wraps(x, tau); } else { MulMonotone(1, n, tau); }
  }

  lemma Wraps(x: int, tau: int)
    requires tau > 0 && x >= tau
    ensures (x - tau) % tau == x % tau
  {
    var q, r := (x - tau) / tau, (x - tau) % tau;
    assert x == (q + 1) * tau + r;
    Quotient(x, q + 1, r, tau);
  }

  lemma Quotient(x: int, q: int, r: int, tau: int)
    requires tau > 0 && x == q * tau + r && 0 <= r < tau
    ensures x / tau == q && x % tau == r
  {
    var q', r' := x / tau, x % tau;
    assert q' * tau + r' == q * tau + r;
    assert (q' - q) * tau == r - r';
    if q' > q { MulMonotone(1, q' - q, tau); }
    if q > q' { MulMonotone(1, q - q', tau); }
  }

  lemma {:induction false} SpendSome(p: Policy, x: int, t: int, n: nat)
    requires Valid(p) && n * TokenInterval(p) <= x
    ensures After(p, State(x, t), Repeat(t, n)) == State(x - n * TokenInterval(p), t)
  {
    var tau := TokenInterval(p);
    FullIsWithinInterval(p);
    if n > 0 {
      assert n * tau == (n - 1) * tau + tau;
      MulMonotone(0, n - 1, tau);
      assert Repeat(t, n)[1..] == Repeat(t, n - 1);
      SpendSome(p, x - tau, t, n - 1);
    }
  }

  // ---- Being forgotten is unseen exactly when nothing was owed -------------------------------------------

  lemma OwedIsSeen(p: Policy, b: State, t: int)
    requires Valid(p) && Ok(p, b) && b.updatedAt <= t && Refill(p, b, t) < Full(p)
    ensures !Indistinguishable(p, b, Fresh(p, t), t)
  {
    var x, n, tau := Refill(p, b, t), p.burst - 1, TokenInterval(p);
    var ts := Repeat(t, n);
    FullIsWithinInterval(p);
    assert Full(p) == (n + 1) * tau && (n + 1) * tau == n * tau + tau;
    SpendAll(p, x, t, n);
    SpendSome(p, Full(p), t, n);
    DecisionsThenOne(p, State(x, t), ts, t);
    DecisionsThenOne(p, Fresh(p, t), ts, t);
    EarlyRefill(p, b, t, ts + [t]);
    assert Decisions(p, b, ts + [t])[n] != Decisions(p, Fresh(p, t), ts + [t])[n];
  }

  /** A bucket can be dropped without anyone noticing exactly when it is full by then. */
  lemma DropIsUnseenIff(p: Policy, b: State, t: int)
    requires Valid(p) && Ok(p, b) && b.updatedAt <= t
    ensures Indistinguishable(p, b, Fresh(p, t), t) <==> Refill(p, b, t) == Full(p)
  {
    FullIsWithinInterval(p);
    if Refill(p, b, t) == Full(p) {
      forall ts | From(t, ts) ensures Decisions(p, b, ts) == Decisions(p, Fresh(p, t), ts) {
        EarlyRefill(p, b, t, ts);
      }
    } else {
      OwedIsSeen(p, b, t);
    }
  }

  // ---- Being forgotten can cost a later request ------------------------------------------------------------

  lemma {:induction false} FineTokens(p: Policy, b: State, other: State, ts: seq<int>, i: nat)
    requires Valid(p) && TokenInterval(p) == 1 && Ok(p, b) && Ok(p, other)
    requires b.updatedAt == other.updatedAt && b.credit <= other.credit && i < |ts|
    ensures Decisions(p, b, ts)[i].allowed ==> Decisions(p, other, ts)[i].allowed
    decreases |ts|
  {
    if i > 0 {
      TakeKeepsOk(p, b, ts[0]);
      TakeKeepsOk(p, other, ts[0]);
      FineTokens(p, Take(p, b, ts[0]).0, Take(p, other, ts[0]).0, ts[1..], i - 1);
    }
  }

  /** The fresh bucket is spent to nothing, the old one keeps the fraction of a token it had, and so
      it is the old one that has a whole token first. */
  lemma FractionWins(p: Policy, b: State, t: int, s: int)
    requires Valid(p) && Ok(p, b) && b.updatedAt <= t <= s
    requires Refill(p, b, s) < Full(p) && Refill(p, b, s) % TokenInterval(p) != 0
    ensures !NeverWorse(p, b, Fresh(p, t), t)
  {
    var x, n, tau := Refill(p, b, s), p.burst, TokenInterval(p);
    var ts, u := Repeat(s, n), s + tau - x % tau;
    FullIsWithinInterval(p);
    assert Full(p) == n * tau && (n + 1) * tau == n * tau + tau;
    SpendAll(p, x, s, n);
    SpendSome(p, Full(p), s, n);
    DecisionsThenOne(p, b, ts, u);
    DecisionsThenOne(p, Fresh(p, t), ts, u);
    EarlyRefillAfter(p, b, s, ts);
    EarlyRefillAfter(p, Fresh(p, t), s, ts);
    assert From(t, ts + [u]);
    assert Decisions(p, b, ts + [u])[n].allowed && !Decisions(p, Fresh(p, t), ts + [u])[n].allowed;
  }

  /** A forgotten caller is never refused a request it would have been granted, exactly when its
      bucket was full or a token takes a single nanosecond. */
  lemma DropDeniesNobodyIff(p: Policy, b: State, t: int)
    requires Valid(p) && Ok(p, b) && b.updatedAt <= t
    ensures NeverWorse(p, b, Fresh(p, t), t) <==> Refill(p, b, t) == Full(p) || p.interval / p.burst == 1
  {
    FullIsWithinInterval(p);
    var x, tau := Refill(p, b, t), TokenInterval(p);
    if x == Full(p) {
      DropIsUnseenIff(p, b, t);
    } else if tau == 1 {
      forall ts, i | From(t, ts) && 0 <= i < |ts|
        ensures Decisions(p, b, ts)[i].allowed ==> Decisions(p, Fresh(p, t), ts)[i].allowed
      {
        EarlyRefill(p, b, t, ts);
        FineTokens(p, State(x, t), Fresh(p, t), ts, i);
      }
    } else if x % tau != 0 {
      FractionWins(p, b, t, t);
    } else {
      NextToWhole(x, p.burst, tau);
      RefillInTwoSteps(p, b, t, t + 1);
      FractionWins(p, b, t, t + 1);
    }
  }

  lemma NextToWhole(x: int, burst: int, tau: int)
    requires tau >= 2 && 0 <= x < burst * tau && x % tau == 0
    ensures x + 1 < burst * tau && (x + 1) % tau != 0
  {
    Quotient(x + 1, x / tau, 1, tau);
    if x + 1 == burst * tau { Quotient(x + 1, burst, 0, tau); }
  }
}
