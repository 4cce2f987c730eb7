/** What a bucket promises when its calls do not arrive in order of time: the clock is read before
    the lock is taken, so a call may carry an earlier time than the one before it. */
module Clocks {
  import opened Common
  import opened Bucket

  /** No time lies more than `d` behind an earlier one. */
  predicate Jitter(d: nat, ts: seq<int>) { forall i, j | 0 <= i < j < |ts| :: ts[i] - d <= ts[j] }

  predicate Inside(lo: int, hi: int, ts: seq<int>) { forall t | t in ts :: lo <= t <= hi }

  /** A burst, and one request for every burst-th of the interval. */
  function Allowance(p: Policy, length: nat): int
    requires Valid(p)
  {
    p.burst + length / (p.interval / p.burst)
  }

  lemma AllowanceGrows(p: Policy, a: nat, b: nat)
    requires Valid(p) && a <= b
    ensures p.burst <= Allowance(p, a) <= Allowance(p, b)
  {
    QuotientMonotone(0, a, p.interval / p.burst);
    QuotientMonotone(a, b, p.interval / p.burst);
  }

  lemma InOrderWithinAllowance(p: Policy, b: State, ts: seq<int>)
    requires Valid(p) && Ok(p, b) && ts != [] && From(ts[0], ts)
    ensures ts[0] <= ts[|ts| - 1] && Admitted(p, b, ts) <= Allowance(p, ts[|ts| - 1] - ts[0])
  {
    WindowBound(p, b, ts);
  }

  /** The window bound for every bucket, every window and every sequence of calls on such a clock. */
  ghost predicate WindowHolds(p: Policy, d: nat)
    requires Valid(p)
  {
    forall b, ts, lo, hi | Ok(p, b) && Jitter(d, ts) && lo <= hi && Inside(lo, hi, ts) ::
      Admitted(p, b, ts) <= Allowance(p, hi - lo)
  }

  lemma {:induction false} AdmittedAppend(p: Policy, b: State, ts: seq<int>, us: seq<int>)
    requires Valid(p)
    ensures Admitted(p, b, ts + us) == Admitted(p, b, ts) + Admitted(p, After(p, b, ts), us)
    ensures After(p, b, ts + us) == After(p, After(p, b, ts), us)
    decreases |ts|
  {
    if ts == [] {
      assert ts + us == us;
    } else {
      AdmittedAppend(p, Take(p, b, ts[0]).0, ts[1..], us);
      assert (ts + us)[1..] == ts[1..] + us;
    }
  }

  /** Going back and forth over the same `d` nanoseconds credits them every time: sooner or later a
      token comes together. */
  lemma {:induction false} OneMoreToken(p: Policy, x: int, d: int) returns (ts: seq<int>)
    requires Valid(p) && d > 0 && 0 <= x <= Full(p)
    ensures Inside(0, d, ts) && Admitted(p, State(x, 0), ts) >= 1
    ensures After(p, State(x, 0), ts).updatedAt == 0 && Ok(p, After(p, State(x, 0), ts))
    decreases Full(p) - x
  {
    var tau := TokenInterval(p);
    FullIsWithinInterval(p);
    TakeKeepsOk(p, State(x, 0), 0);
    if x >= tau {
      ts := [0];
      assert After(p, State(x, 0), ts) == Take(p, State(x, 0), 0).0;
    } else {
      ts := [d, 0];
      var up := Take(p, State(x, 0), d).0;
      TakeKeepsOk(p, State(x, 0), d);
      TakeKeepsOk(p, up, 0);
      assert ts[1..] == [0];
      assert After(p, State(x, 0), ts) == After(p, up, [0]) == Take(p, up, 0).0;
      if x + d < tau {
        var more := OneMoreToken(p, x + d, d);
        AdmittedAppend(p, State(x, 0), ts, more);
        ts := ts + more;
      }
    }
  }

  lemma {:induction false} ManyTokens(p: Policy, b: State, d: int, n: nat) returns (ts: seq<int>)
    requires Valid(p) && d > 0 && Ok(p, b) && b.updatedAt == 0
    ensures Inside(0, d, ts) && Admitted(p, b, ts) >= n
    decreases n
  {
    if n == 0 {
      ts := [];
    } else {
      var first := OneMoreToken(p, b.credit, d);
      var rest := ManyTokens(p, After(p, b, first), d, n - 1);
      AdmittedAppend(p, b, first, rest);
      ts := first + rest;
    }
  }

  /** For every policy a clock that goes back by a single nanosecond is enough to exceed the window
      bound, by any number of requests. */
  lemma BackwardClockExceedsWindow(p: Policy, d: nat, excess: nat) returns (ts: seq<int>)
    requires Valid(p) && d > 0
    ensures Jitter(d, ts) && Inside(0, d, ts)
    ensures Admitted(p, Fresh(p, 0), ts) > Allowance(p, d) + excess
  {
    AllowanceGrows(p, 0, d);
    ts := ManyTokens(p, Fresh(p, 0), d, Allowance(p, d) + excess + 1);
    forall i, j | 0 <= i < j < |ts| ensures ts[i] - d <= ts[j] { assert ts[i] in ts && ts[j] in ts; }
  }

  lemma WindowHoldsInOrder(p: Policy, b: State, ts: seq<int>, lo: int, hi: int)
    requires Valid(p) && Ok(p, b) && Jitter(0, ts) && lo <= hi && Inside(lo, hi, ts)
    ensures Admitted(p, b, ts) <= Allowance(p, hi - lo)
  {
    if ts == [] {
      AllowanceGrows(p, 0, hi - lo);
    } else {
      InOrderWithinAllowance(p, b, ts);
      assert ts[0] in ts && ts[|ts| - 1] in ts;
      AllowanceGrows(p, ts[|ts| - 1] - ts[0], hi - lo);
    }
  }

  lemma QuotientMonotone(a: int, b: int, k: int)
    requires k > 0 && a <= b
    ensures a / k <= b / k
  {
    DivideLess(a / k, k, b);
  }

  /** Times that never go back are the exact condition on a clock for the window bound, for every
      policy. */
  lemma WindowHoldsIff(p: Policy, d: nat)
    requires Valid(p)
    ensures WindowHolds(p, d) <==> d == 0
  {
    if d == 0 {
      forall b, ts, lo, hi | Ok(p, b) && Jitter(d, ts) && lo <= hi && Inside(lo, hi, ts)
        ensures Admitted(p, b, ts) <= Allowance(p, hi - lo)
      {
        WindowHoldsInOrder(p, b, ts, lo, hi);
      }
    } else {
      FullIsWithinInterval(p);
      var ts := BackwardClockExceedsWindow(p, d, 0);
      assert Ok(p, Fresh(p, 0));
    }
  }

  /** A refused call leaves every later decision alone exactly when it did not arrive out of order:
      one that did takes its bucket back in time, and time passes twice. */
  lemma RefusedIsFreeIff(p: Policy, b: State, t: int)
    requires Valid(p) && Ok(p, b) && !Take(p, b, t).1.allowed
    ensures (forall ts | From(t, ts) :: Decisions(p, Take(p, b, t).0, ts) == Decisions(p, b, ts)) <==> b.updatedAt <= t
  {
    if b.updatedAt <= t {
      forall ts | From(t, ts) ensures Decisions(p, Take(p, b, t).0, ts) == Decisions(p, b, ts) {
        RefusedCallIsFree(p, b, t, ts);
      }
    } else {
      FullIsWithinInterval(p);
      var u := t + TokenInterval(p) - b.credit;
      assert From(t, [u]);
      assert Decisions(p, Take(p, b, t).0, [u])[0].allowed && !Decisions(p, b, [u])[0].allowed;
    }
  }
}
