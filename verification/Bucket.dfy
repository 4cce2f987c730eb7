/** The token bucket of one caller. Credit is counted in nanoseconds of refill, so `credit`
    stands for `tokens * tokenInterval` and stays a whole number: a bucket starts full and time
    advances by whole nanoseconds. */
module Bucket {
  import opened Common

  datatype Policy = Policy(burst: int, interval: int)

  const SECOND: int := 1_000_000_000

  /** Policy.Validate: burst and interval positive, and one token worth at least a nanosecond. */
  predicate Valid(p: Policy) { p.burst >= 1 && p.interval > 0 && p.interval / p.burst > 0 }

  function TokenInterval(p: Policy): int
    requires p.burst >= 1
  {
    p.interval / p.burst
  }

  function Full(p: Policy): int
    requires p.burst >= 1
  {
    p.burst * TokenInterval(p)
  }

  datatype State = State(credit: int, updatedAt: int)

  datatype Decision = Decision(allowed: bool, retryAfter: int)

  function Fresh(p: Policy, now: int): State
    requires Valid(p)
  {
    State(Full(p), now)
  }

  function RoundUpToSecond(wait: int): int {
    if wait <= SECOND then SECOND
    else
      var rounded := wait - wait % SECOND;
      if rounded < wait then rounded + SECOND else rounded
  }

  function Min(a: int, b: int): int { if a < b then a else b }

  /** The credit at `now`; a clock that did not advance adds nothing. */
  function Refill(p: Policy, b: State, now: int): int
    requires Valid(p)
  {
    if now > b.updatedAt then Min(Full(p), b.credit + (now - b.updatedAt)) else b.credit
  }

  /** Refills up to `now` and spends one token when there is one. */
  function Take(p: Policy, b: State, now: int): (State, Decision)
    requires Valid(p)
  {
    var credit := Refill(p, b, now);
    if credit >= TokenInterval(p) then (State(credit - TokenInterval(p), now), Decision(true, 0))
    else (State(credit, now), Decision(false, RoundUpToSecond(TokenInterval(p) - credit)))
  }

  ghost predicate Ok(p: Policy, b: State)
    requires Valid(p)
  {
    0 <= b.credit <= Full(p)
  }

  lemma FullIsWithinInterval(p: Policy)
    requires Valid(p)
    ensures 0 < TokenInterval(p) <= Full(p) <= p.interval
  {
    var t := TokenInterval(p);
    assert p.burst * t == p.interval - p.interval % p.burst;
    assert p.burst * t >= t by { assert (p.burst - 1) * t >= 0; }
  }

  lemma TakeKeepsOk(p: Policy, b: State, now: int)
    requires Valid(p) && Ok(p, b)
    ensures Ok(p, Take(p, b, now).0)
  {
    FullIsWithinInterval(p);
  }

  // ---- Sequences of calls --------------------------------------------------------------------

  function After(p: Policy, b: State, ts: seq<int>): State
    requires Valid(p)
    decreases |ts|
  {
    if ts == [] then b else After(p, Take(p, b, ts[0]).0, ts[1..])
  }

  function Decisions(p: Policy, b: State, ts: seq<int>): (ds: seq<Decision>)
    requires Valid(p)
    ensures |ds| == |ts|
    decreases |ts|
  {
    if ts == [] then []
    else [Take(p, b, ts[0]).1] + Decisions(p, Take(p, b, ts[0]).0, ts[1..])
  }

  function Admitted(p: Policy, b: State, ts: seq<int>): nat
    requires Valid(p)
    decreases |ts|
  {
    if ts == [] then 0
    else (if Take(p, b, ts[0]).1.allowed then 1 else 0) + Admitted(p, Take(p, b, ts[0]).0, ts[1..])
  }

  /** The times of the calls that were admitted. */
  function AdmittedTimes(p: Policy, b: State, ts: seq<int>): seq<int>
    requires Valid(p)
    decreases |ts|
  {
    if ts == [] then []
    else
      var rest := AdmittedTimes(p, Take(p, b, ts[0]).0, ts[1..]);
      if Take(p, b, ts[0]).1.allowed then [ts[0]] + rest else rest
  }

  predicate From(start: int, ts: seq<int>) {
    (forall i | 0 <= i < |ts| :: start <= ts[i]) && (forall i, j | 0 <= i < j < |ts| :: ts[i] <= ts[j])
  }

  /** How far the clock moved forward, from one call to the next. */
  function Forward(start: int, ts: seq<int>): nat
    decreases |ts|
  {
    if ts == [] then 0 else (if ts[0] > start then ts[0] - start else 0) + Forward(ts[0], ts[1..])
  }

  // ---- Retry-After ---------------------------------------------------------------------------

  lemma RoundedWait(wait: int)
    ensures RoundUpToSecond(wait) >= wait && RoundUpToSecond(wait) >= SECOND
    ensures RoundUpToSecond(wait) > SECOND ==> RoundUpToSecond(wait) - SECOND < wait
    ensures RoundUpToSecond(wait) % SECOND == 0
  {
  }

  /** Retry-After is exact: waiting it out admits the next request, and when it is more than a
      second, one second less is still refused. */
  lemma RetryAfterIsExact(p: Policy, b: State, now: int)
    requires Valid(p) && Ok(p, b) && !Take(p, b, now).1.allowed
    ensures var (after, d) := Take(p, b, now);
            && d.retryAfter >= SECOND && d.retryAfter % SECOND == 0
            && Take(p, after, now + d.retryAfter).1.allowed
            && (d.retryAfter > SECOND ==> !Take(p, after, now + d.retryAfter - SECOND).1.allowed)
            && (forall t | t >= now :: Take(p, after, t).1.allowed <==> t - now >= p.interval / p.burst - after.credit)
  {
    FullIsWithinInterval(p);
    RoundedWait(TokenInterval(p) - Refill(p, b, now));
  }

  // ---- Refused calls cost nothing ---------------------------------------------------------------

  lemma RefillInTwoSteps(p: Policy, b: State, t: int, u: int)
    requires Valid(p) && b.updatedAt <= t <= u && b.credit <= Full(p)
    ensures Refill(p, State(Refill(p, b, t), t), u) == Refill(p, b, u)
  {
  }

  /** One refused call changes no later decision. */
  lemma {:induction false} RefusedCallIsFree(p: Policy, b: State, t: int, ts: seq<int>)
    requires Valid(p) && Ok(p, b) && b.updatedAt <= t && From(t, ts) && !Take(p, b, t).1.allowed
    ensures Decisions(p, Take(p, b, t).0, ts) == Decisions(p, b, ts)
  {
    if ts != [] { RefillInTwoSteps(p, b, t, ts[0]); }
  }

  /** Neither does any number of them: a bucket decides as if it had only ever seen the calls it
      admitted. */
  lemma {:induction false} OnlyAdmittedCallsMatter(p: Policy, b: State, ts: seq<int>, u: int)
    requires Valid(p) && Ok(p, b) && From(b.updatedAt, ts) && b.updatedAt <= u && (ts != [] ==> ts[|ts| - 1] <= u)
    ensures Take(p, After(p, b, ts), u) == Take(p, After(p, b, AdmittedTimes(p, b, ts)), u)
    decreases |ts|
  {
    if ts != [] {
      var t, rest := ts[0], ts[1..];
      var (next, d) := Take(p, b, t);
      TakeKeepsOk(p, b, t);
      assert rest != [] ==> rest[|rest| - 1] == ts[|ts| - 1];
      assert t <= u;
      OnlyAdmittedCallsMatter(p, next, rest, u);
      var kept := AdmittedTimes(p, next, rest);
      if d.allowed {
        assert ([t] + kept)[1..] == kept;
      } else {
        AdmittedTimesStayOrdered(p, next, rest, t);
        DelayedStart(p, b, t, kept, u);
      }
    }
  }

  lemma {:induction false} AdmittedTimesStayOrdered(p: Policy, b: State, ts: seq<int>, start: int)
    requires Valid(p) && From(start, ts)
    ensures From(start, AdmittedTimes(p, b, ts))
    ensures forall x | x in AdmittedTimes(p, b, ts) :: x in ts
    decreases |ts|
  {
    if ts != [] {
      assert From(ts[0], ts[1..]);
      AdmittedTimesStayOrdered(p, Take(p, b, ts[0]).0, ts[1..], ts[0]);
    }
  }

  /** Bringing the credit up to date early makes no difference. */
  lemma {:induction false} DelayedStart(p: Policy, b: State, t: int, ts: seq<int>, u: int)
    requires Valid(p) && Ok(p, b) && b.updatedAt <= t <= u && From(t, ts)
    ensures Take(p, After(p, State(Refill(p, b, t), t), ts), u) == Take(p, After(p, b, ts), u)
  {
    if ts == [] {
      RefillInTwoSteps(p, b, t, u);
    } else {
      RefillInTwoSteps(p, b, t, ts[0]);
    }
  }

  // ---- The window bound ---------------------------------------------------------------------------

  /** Every admitted call is paid for by credit or by time that went forward. */
  lemma {:induction false} AdmissionsArePaid(p: Policy, b: State, ts: seq<int>)
    requires Valid(p) && Ok(p, b)
    ensures Admitted(p, b, ts) * TokenInterval(p) <= b.credit + Forward(b.updatedAt, ts)
    decreases |ts|
  {
    if ts != [] {
      var (next, d) := Take(p, b, ts[0]);
      TakeKeepsOk(p, b, ts[0]);
      AdmissionsArePaid(p, next, ts[1..]);
      var rest := Admitted(p, next, ts[1..]);
      assert (1 + rest) * TokenInterval(p) == TokenInterval(p) + rest * TokenInterval(p);
    }
  }

  lemma {:induction false} ForwardIsLength(start: int, ts: seq<int>)
    requires From(start, ts)
    ensures Forward(start, ts) == if ts == [] then 0 else ts[|ts| - 1] - start
    decreases |ts|
  {
    if ts != [] {
      assert From(ts[0], ts[1..]);
      ForwardIsLength(ts[0], ts[1..]);
    }
  }

  lemma DivideBound(n: int, burst: int, k: int, f: int)
    requires k > 0 && n * k <= burst * k + f
    ensures n <= burst + f / k
  {
    var d := n - burst;
    assert d * k == n * k - burst * k;
    assert d * k <= f;
    DivideLess(d, k, f);
  }

  lemma DivideLess(d: int, k: int, f: int)
    requires k > 0 && d * k <= f
    ensures d <= f / k
  {
    var q := f / k;
    assert f < (q + 1) * k by { assert f == q * k + f % k; }
    if q + 1 <= d { MulMonotone(q + 1, d, k); }
  }

  /** The window bound for any clock at all: at most a burst, plus what the clock paid for while
      it moved forward. */
  lemma AdmittedWithinForward(p: Policy, b: State, ts: seq<int>)
    requires Valid(p) && Ok(p, b) && ts != []
    ensures Admitted(p, b, ts) <= p.burst + Forward(ts[0], ts[1..]) / (p.interval / p.burst)
  {
    FullIsWithinInterval(p);
    var refilled := State(Refill(p, b, ts[0]), ts[0]);
    AdmittedAfterRefill(p, b, ts);
    AdmissionsArePaid(p, refilled, ts);
    assert Forward(refilled.updatedAt, ts) == Forward(ts[0], ts[1..]);
    DivideBound(Admitted(p, b, ts), p.burst, TokenInterval(p), Forward(ts[0], ts[1..]));
  }

  lemma AdmittedAfterRefill(p: Policy, b: State, ts: seq<int>)
    requires Valid(p) && ts != []
    ensures Admitted(p, State(Refill(p, b, ts[0]), ts[0]), ts) == Admitted(p, b, ts)
  {
    assert Take(p, State(Refill(p, b, ts[0]), ts[0]), ts[0]) == Take(p, b, ts[0]);
  }

  /** With a clock that never goes back: a window of length T admits at most Burst + T/tokenInterval
      requests, whatever the bucket looked like before, where tokenInterval is interval / burst. */
  lemma WindowBound(p: Policy, b: State, ts: seq<int>)
    requires Valid(p) && Ok(p, b) && ts != [] && From(ts[0], ts)
    ensures Admitted(p, b, ts) <= p.burst + (ts[|ts| - 1] - ts[0]) / (p.interval / p.burst)
  {
    AdmittedWithinForward(p, b, ts);
    ForwardIsLength(ts[0], ts[1..]);
  }

  // ---- The rate, in terms of the policy alone -----------------------------------------------------

  /** A policy can be enforced when a token is worth at least a nanosecond. */
  lemma ValidIff(p: Policy)
    ensures Valid(p) <==> 1 <= p.burst <= p.interval
  {
    if p.burst >= 1 && p.interval > 0 {
      var q := p.interval / p.burst;
      assert p.interval == q * p.burst + p.interval % p.burst;
      if q > 0 { MulMonotone(1, q, p.burst); }
    }
  }

  /** What `k` tokens and some nanoseconds are worth. */
  function Worth(p: Policy, k: nat, spare: int): int
    requires Valid(p)
  {
    k * TokenInterval(p) + spare
  }

  lemma WorthOne(p: Policy, k: nat, spare: int)
    requires Valid(p) && 0 <= spare < TokenInterval(p)
    ensures Worth(p, 0, spare) == spare && (k == 0 <==> Worth(p, k, spare) < TokenInterval(p))
    ensures k > 0 ==> Worth(p, k, spare) == Worth(p, k - 1, spare) + TokenInterval(p)
  {
    if k > 0 { MulMonotone(1, k, TokenInterval(p)); }
  }

  /** One call spends one token and keeps the nanoseconds. */
  lemma SpendsOne(p: Policy, b: State, t: int, k: nat, spare: int)
    requires Valid(p) && 0 <= spare < TokenInterval(p) && Refill(p, b, t) == Worth(p, k, spare)
    ensures Take(p, b, t).1.allowed <==> k > 0
    ensures Take(p, b, t).0 == State(Worth(p, if k > 0 then k - 1 else 0, spare), t)
  {
    WorthOne(p, k, spare);
  }

  /** A bucket that is worth `k` tokens and some nanoseconds serves `k` calls at one instant, and keeps
      the nanoseconds. */
  lemma {:induction false} SpendsWhole(p: Policy, b: State, t: int, k: nat, spare: int, n: nat)
    requires Valid(p) && 0 <= spare < TokenInterval(p) && Refill(p, b, t) == Worth(p, k, spare)
    ensures Admitted(p, b, Repeat(t, n)) == if n < k then n else k
    ensures n > 0 ==> After(p, b, Repeat(t, n)) == State(Worth(p, if n < k then k - n else 0, spare), t)
    decreases n
  {
    if n > 0 {
      assert Repeat(t, n)[1..] == Repeat(t, n - 1);
      SpendsOne(p, b, t, k, spare);
      SpendsWhole(p, Take(p, b, t).0, t, if k > 0 then k - 1 else 0, spare, n - 1);
    }
  }

  /** A fresh bucket serves a burst at once and is empty then. */
  lemma FreshServesBurst(p: Policy, t0: int)
    requires Valid(p)
    ensures Admitted(p, Fresh(p, t0), Repeat(t0, p.burst)) == p.burst
    ensures After(p, Fresh(p, t0), Repeat(t0, p.burst)) == State(0, t0)
  {
    FullIsWithinInterval(p);
    WorthOne(p, 0, 0);
    SpendsWhole(p, Fresh(p, t0), t0, p.burst, 0, p.burst);
  }

  /** The least positive number of whole seconds that covers a wait. */
  predicate WholeSeconds(r: int, wait: int) {
    r % 1_000_000_000 == 0 && r >= 1_000_000_000 && r >= wait && (r > 1_000_000_000 ==> r - 1_000_000_000 < wait)
  }

  /** The rate: after a burst, the next request is admitted exactly when a burst-th of the interval
      has passed; a refusal asks for the missing time in whole seconds, one at least and not one
      more than needed. */
  lemma NextCallIff(p: Policy, t0: int, t: int)
    requires 1 <= p.burst <= p.interval
    ensures Valid(p)
    ensures var (_, d) := Take(p, After(p, Fresh(p, t0), Repeat(t0, p.burst)), t);
            var missing := p.interval / p.burst - (if t < t0 then 0 else t - t0);
            && (d.allowed <==> t - t0 >= p.interval / p.burst)
            && (d.allowed ==> d.retryAfter == 0)
            && (!d.allowed ==> WholeSeconds(d.retryAfter, missing))
  {
    ValidIff(p);
    FullIsWithinInterval(p);
    FreshServesBurst(p, t0);
    RoundedWait(TokenInterval(p) - Refill(p, State(0, t0), t));
  }

  lemma RefillIsWorth(p: Policy, t0: int, t: int, k: nat, spare: nat)
    requires Valid(p) && t0 <= t && t - t0 == Worth(p, k, spare) && spare < TokenInterval(p)
    ensures Refill(p, State(0, t0), t) == if k < p.burst then Worth(p, k, spare) else Worth(p, p.burst, 0)
  {
    var tau := TokenInterval(p);
    if k < p.burst { MulMonotone(k + 1, p.burst, tau); } else { MulMonotone(p.burst, k, tau); }
  }

  /** Elapsed time in whole tokens and the nanoseconds left over. */
  lemma Split(p: Policy, elapsed: nat) returns (k: nat, spare: nat)
    requires Valid(p)
    ensures k == elapsed / (p.interval / p.burst) && elapsed == Worth(p, k, spare) && spare < TokenInterval(p)
  {
    k, spare := elapsed / TokenInterval(p), elapsed % TokenInterval(p);
  }

  lemma ServesRefilled(p: Policy, t0: int, t: int, k: nat, spare: nat, n: nat)
    requires Valid(p) && t0 <= t && t - t0 == Worth(p, k, spare) && spare < TokenInterval(p)
    ensures Admitted(p, State(0, t0), Repeat(t, n)) == Min(n, Min(p.burst, k))
  {
    RefillIsWorth(p, t0, t, k, spare);
    if k < p.burst {
      SpendsWhole(p, State(0, t0), t, k, spare, n);
    } else {
      SpendsWhole(p, State(0, t0), t, p.burst, 0, n);
    }
  }

  /** The whole rate: of any number of requests after a pause, as many are admitted as tokens were
      refilled meanwhile, a burst at most. */
  lemma RefillRate(p: Policy, t0: int, t: int, n: nat)
    requires 1 <= p.burst <= p.interval && t0 <= t
    ensures Valid(p) && p.interval / p.burst > 0
    ensures var refilled := (t - t0) / (p.interval / p.burst);
            Admitted(p, After(p, Fresh(p, t0), Repeat(t0, p.burst)), Repeat(t, n)) == Min(n, Min(p.burst, refilled))
  {
    ValidIff(p);
    FreshServesBurst(p, t0);
    var k, spare := Split(p, t - t0);
    ServesRefilled(p, t0, t, k, spare, n);
  }
}
