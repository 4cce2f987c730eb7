/** Which limiters never refuse a request that the unbounded one admits, request by request. */
module LimiterRefusals {
  import opened Common
  import opened Limiter
  import opened LimiterTheorems
  import opened LimiterComparison
  import opened LimiterTransparency
  import opened LateCalls
  import Bucket

  /** Some decision admits where the other refuses. */
  ghost predicate Behind(mine: seq<Bucket.Decision>, theirs: seq<Bucket.Decision>) {
    exists i :: 0 <= i < |mine| && i < |theirs| && theirs[i].allowed && !mine[i].allowed
  }

  /** Some request of key 0 or any other key is admitted by the reference and refused here. */
  ghost predicate Refuses(c: Config, ss: seq<Slot>, m: Buckets, calls: seq<Call>, k: Key)
    requires Valid(c)
  {
    Behind(Decisions(c, ss, calls, k), RefDecisions(c, m, calls, k))
  }

  /** Every request that the reference admits is admitted, over all requests in order of time. */
  ghost predicate NeverRefuses(c: Config)
    requires Valid(c)
  {
    forall start, calls, k | InOrder(start, calls) :: !Refuses(c, [], map[], calls, k)
  }

  /** The decisions of a run are those of its first call and of the rest. */
  lemma RefusesFront(c: Config, ss: seq<Slot>, m: Buckets, calls: seq<Call>, k: Key)
    requires Valid(c) && calls != []
    ensures var call := calls[0];
            var (after, x) := Serve(c, ss, call.key, call.now);
            var (refAfter, y) := RefServe(c, m, call.key, call.now);
            Refuses(c, ss, m, calls, k)
            <==> (call.key == k && y.allowed && !x.allowed) || Refuses(c, after, refAfter, calls[1..], k)
  {
    var call := calls[0];
    var (after, x) := Serve(c, ss, call.key, call.now);
    var (refAfter, y) := RefServe(c, m, call.key, call.now);
    var mine, theirs := Decisions(c, after, calls[1..], k), RefDecisions(c, refAfter, calls[1..], k);
    if call.key != k {
      assert Decisions(c, ss, calls, k) == [] + mine == mine;
      assert RefDecisions(c, m, calls, k) == [] + theirs == theirs;
    } else {
      ShiftedByOne(x, y, mine, theirs);
    }
  }

  lemma ShiftedByOne(x: Bucket.Decision, y: Bucket.Decision, mine: seq<Bucket.Decision>, theirs: seq<Bucket.Decision>)
    ensures Behind([x] + mine, [y] + theirs) <==> (y.allowed && !x.allowed) || Behind(mine, theirs)
  {
    var a, b := [x] + mine, [y] + theirs;
    if i :| 0 <= i < |a| && i < |b| && b[i].allowed && !a[i].allowed {
      if i > 0 { assert theirs[i - 1].allowed && !mine[i - 1].allowed; }
    }
    if y.allowed && !x.allowed { assert b[0].allowed && !a[0].allowed; }
    if i :| 0 <= i < |mine| && i < |theirs| && theirs[i].allowed && !mine[i].allowed {
      assert b[i + 1].allowed && !a[i + 1].allowed;
    }
  }

  // ---- Finest tokens or shortest memory -------------------------------------------------------------------

  /** This limiter has at least the reference's credit; with a TTL of one nanosecond the reference may
      have more, but not a token, until the clock moves. */
  predicate Ahead(c: Config, mine: int, theirs: int)
    requires Valid(c)
  {
    mine >= theirs || (c.ttl == 1 && theirs < Bucket.TokenInterval(c.policy))
  }

  lemma AllExpire(c: Config, ss: seq<Slot>, t: int, call: Call, k: Key)
    requires Valid(c) && Inv(c, ss, t) && c.ttl == 1 && t < call.now
    ensures Arrives(c, ss, call, k) == Bucket.Full(c.policy)
  {
    ExpiryIsExact(c, ss, call.now);
    ExpireCuts(c, ss, call.now, k);
    var young := Expire(c, ss, call.now);
    assert forall s | s in young :: s in ss;
    if s :| s in young { assert false; }
    LookupSound(c, ss, t, k);
    CreditGrows(c, Lookup(ss, k), t, call.now);
  }

  lemma ArrivesAhead(c: Config, ss: seq<Slot>, m: Buckets, t: int, call: Call, k: Key)
    requires Valid(c) && Inv(c, ss, t) && Sound(c, Get(m, k), t) && t <= call.now
    requires Ahead(c, Credit(c, Lookup(ss, k), t), Credit(c, Get(m, k), t))
    ensures Ahead(c, Arrives(c, ss, call, k), Credit(c, Get(m, k), call.now))
    ensures 0 <= Arrives(c, ss, call, k)
  {
    LookupSound(c, ss, t, k);
    CreditGrows(c, Lookup(ss, k), t, call.now);
    CreditGrows(c, Get(m, k), t, call.now);
    CreditGrows(c, Get(m, k), call.now, call.now);
    Bucket.FullIsWithinInterval(c.policy);
    if c.ttl == 1 && t < call.now { AllExpire(c, ss, t, call, k); }
  }

  lemma CallStaysAhead(c: Config, ss: seq<Slot>, m: Buckets, t: int, call: Call, k: Key)
    requires Valid(c) && Inv(c, ss, t) && Sound(c, Get(m, k), t) && t <= call.now
    requires Bucket.TokenInterval(c.policy) == 1 || c.ttl == 1
    requires Ahead(c, Credit(c, Lookup(ss, k), t), Credit(c, Get(m, k), t))
    ensures var (after, x) := Serve(c, ss, call.key, call.now);
            var (refAfter, y) := RefServe(c, m, call.key, call.now);
            && Inv(c, after, call.now) && Sound(c, Get(refAfter, k), call.now)
            && Ahead(c, Credit(c, Lookup(after, k), call.now), Credit(c, Get(refAfter, k), call.now))
            && (call.key == k && y.allowed ==> x.allowed)
  {
    ArrivesAhead(c, ss, m, t, call, k);
    ServeCredit(c, ss, t, call, k);
    RefServeCredit(c, m, t, call, k);
    TakeOfCredit(c, Arrives(c, ss, call, k), call.now);
    TakeOfCredit(c, Credit(c, Get(m, k), call.now), call.now);
  }

  lemma {:induction false} AheadNeverRefuses(c: Config, ss: seq<Slot>, m: Buckets, t: int, calls: seq<Call>, k: Key)
    requires Valid(c) && Inv(c, ss, t) && Sound(c, Get(m, k), t) && InOrder(t, calls)
    requires Bucket.TokenInterval(c.policy) == 1 || c.ttl == 1
    requires Ahead(c, Credit(c, Lookup(ss, k), t), Credit(c, Get(m, k), t))
    ensures !Refuses(c, ss, m, calls, k)
    decreases |calls|
  {
    if calls != [] {
      var call := calls[0];
      CallStaysAhead(c, ss, m, t, call, k);
      RefusesFront(c, ss, m, calls, k);
      AheadNeverRefuses(c, Serve(c, ss, call.key, call.now).0, RefServe(c, m, call.key, call.now).0, call.now,
                        calls[1..], k);
    }
  }

  // ---- Every other limiter refuses something ---------------------------------------------------------------

  /** Key 0 called last at `t` in both limiters. */
  ghost predicate Both(c: Config, ss: seq<Slot>, m: Buckets, t: int, x: int, y: int)
    requires Valid(c)
  {
    && Inv(c, ss, t) && Lookup(ss, 0) == Some(Bucket.State(x, t)) && Get(m, 0) == Some(Bucket.State(y, t))
    && 0 <= x <= Bucket.Full(c.policy) && 0 <= y <= Bucket.Full(c.policy)
  }

  function Spent(c: Config, x: int): int
    requires Valid(c)
  {
    if x >= Bucket.TokenInterval(c.policy) then x - Bucket.TokenInterval(c.policy) else x
  }

  lemma HeldCallAddsNothing(c: Config, ss: seq<Slot>, key: Key, now: int)
    requires Valid(c) && DistinctKeys(ss) && Lookup(Expire(c, ss, now), key).Some?
    ensures |Serve(c, ss, key, now).0| <= |ss|
  {
    ExpireCuts(c, ss, now, key);
    RemoveIsPart(Expire(c, ss, now), key);
  }

  lemma OwnCharge(c: Config, ss: seq<Slot>, t: int, x: int, wait: nat) returns (after: seq<Slot>)
    requires Valid(c) && c.ttl != 1 && wait <= 1 && Inv(c, ss, t) && Lookup(ss, 0) == Some(Bucket.State(x, t))
    requires x <= Bucket.Full(c.policy)
    ensures var x' := Bucket.Min(Bucket.Full(c.policy), x + wait);
            && after == Serve(c, ss, 0, t + wait).0 && Inv(c, after, t + wait) && |after| <= |ss|
            && Lookup(after, 0) == Some(Bucket.State(Spent(c, x'), t + wait))
            && (Serve(c, ss, 0, t + wait).1.allowed <==> x' >= Bucket.TokenInterval(c.policy))
  {
    after := Serve(c, ss, 0, t + wait).0;
    ExpiryKeepsYoung(c, ss, t, t + wait, 0);
    HeldServes(c, ss, t, x, wait);
    ServeKeepsInv(c, ss, t, 0, t + wait);
    HeldCallAddsNothing(c, ss, 0, t + wait);
  }

  lemma HeldServes(c: Config, ss: seq<Slot>, t: int, x: int, wait: nat)
    requires Valid(c) && DistinctKeys(ss) && Lookup(Expire(c, ss, t + wait), 0) == Some(Bucket.State(x, t))
    requires x <= Bucket.Full(c.policy)
    ensures var x' := Bucket.Min(Bucket.Full(c.policy), x + wait);
            var (after, d) := Serve(c, ss, 0, t + wait);
            && Lookup(after, 0) == Some(Bucket.State(Spent(c, x'), t + wait))
            && (d.allowed <==> x' >= Bucket.TokenInterval(c.policy))
  {
    ServeLookup(c, ss, 0, t + wait, 0);
  }

  lemma RefCharge(c: Config, m: Buckets, t: int, y: int, wait: nat) returns (refAfter: Buckets)
    requires Valid(c) && Get(m, 0) == Some(Bucket.State(y, t)) && y <= Bucket.Full(c.policy)
    ensures var y' := Bucket.Min(Bucket.Full(c.policy), y + wait);
            && refAfter == RefServe(c, m, 0, t + wait).0
            && Get(refAfter, 0) == Some(Bucket.State(Spent(c, y'), t + wait))
            && (RefServe(c, m, 0, t + wait).1.allowed <==> y' >= Bucket.TokenInterval(c.policy))
  {
    refAfter := RefServe(c, m, 0, t + wait).0;
  }

  /** One more call of key 0, at the same time or a nanosecond later: what both limiters hold then. */
  lemma OwnHeld(c: Config, ss: seq<Slot>, m: Buckets, t: int, x: int, y: int, wait: nat)
    returns (after: seq<Slot>, refAfter: Buckets)
    requires Valid(c) && c.ttl != 1 && wait <= 1 && Both(c, ss, m, t, x, y)
    ensures after == Serve(c, ss, 0, t + wait).0 && refAfter == RefServe(c, m, 0, t + wait).0 && |after| <= |ss|
    ensures var full, tau := Bucket.Full(c.policy), Bucket.TokenInterval(c.policy);
            var x', y' := Bucket.Min(full, x + wait), Bucket.Min(full, y + wait);
            && Both(c, after, refAfter, t + wait, Spent(c, x'), Spent(c, y'))
            && (Serve(c, ss, 0, t + wait).1.allowed <==> x' >= tau)
            && (RefServe(c, m, 0, t + wait).1.allowed <==> y' >= tau)
  {
    Bucket.FullIsWithinInterval(c.policy);
    after := OwnCharge(c, ss, t, x, wait);
    refAfter := RefCharge(c, m, t, y, wait);
  }

  /** And whether this limiter refuses what the reference admits, now or later. */
  lemma OwnCall(c: Config, ss: seq<Slot>, m: Buckets, t: int, x: int, y: int, wait: nat, later: seq<Call>)
    returns (after: seq<Slot>, refAfter: Buckets)
    requires Valid(c) && c.ttl != 1 && wait <= 1 && Both(c, ss, m, t, x, y)
    ensures var full, tau := Bucket.Full(c.policy), Bucket.TokenInterval(c.policy);
            var x', y' := Bucket.Min(full, x + wait), Bucket.Min(full, y + wait);
            && Both(c, after, refAfter, t + wait, Spent(c, x'), Spent(c, y'))
            && (Refuses(c, ss, m, [Call(0, t + wait)] + later, 0)
                <==> (y' >= tau && x' < tau) || Refuses(c, after, refAfter, later, 0))
    ensures |after| <= |ss|
  {
    after, refAfter := OwnHeld(c, ss, m, t, x, y, wait);
    OwnRefuses(c, ss, m, t + wait, later);
  }

  lemma OwnRefuses(c: Config, ss: seq<Slot>, m: Buckets, now: int, later: seq<Call>)
    requires Valid(c)
    ensures var (after, x) := Serve(c, ss, 0, now);
            var (refAfter, y) := RefServe(c, m, 0, now);
            Refuses(c, ss, m, [Call(0, now)] + later, 0)
            <==> (y.allowed && !x.allowed) || Refuses(c, after, refAfter, later, 0)
  {
    assert ([Call(0, now)] + later)[1..] == later;
    RefusesFront(c, ss, m, [Call(0, now)] + later, 0);
  }

  /** One call of a burst. */
  lemma BurstOne(c: Config, ss: seq<Slot>, m: Buckets, t: int, x: int, y: int, n: nat, later: seq<Call>)
    returns (next: seq<Slot>, refNext: Buckets, x': int, y': int)
    requires Valid(c) && c.ttl != 1 && Both(c, ss, m, t, x, y) && n > 0
    requires x == n * Bucket.TokenInterval(c.policy) && (y == x || y < Bucket.TokenInterval(c.policy))
    ensures Both(c, next, refNext, t, x', y') && |next| <= |ss|
    ensures x' == (n - 1) * Bucket.TokenInterval(c.policy) && y' == if y == x then x' else y
    ensures Refuses(c, next, refNext, Calling(t, n - 1, later), 0) ==> Refuses(c, ss, m, Calling(t, n, later), 0)
  {
    LessOne(n, Bucket.TokenInterval(c.policy)) by { Bucket.FullIsWithinInterval(c.policy); }
    x', y' := Spent(c, x), Spent(c, y);
    next, refNext := OwnCall(c, ss, m, t, x, y, 0, Calling(t, n - 1, later));
    assert Calling(t, n, later) == [Call(0, t)] + Calling(t, n - 1, later);
  }

  /** A burst at one instant leaves this limiter nothing; the reference spends as much, or has no
      token to spend. */
  lemma {:induction false} BurstDown(
    c: Config, ss: seq<Slot>, m: Buckets, t: int, x: int, y: int, n: nat, later: seq<Call>)
    returns (after: seq<Slot>, refAfter: Buckets)
    requires Valid(c) && c.ttl != 1 && Both(c, ss, m, t, x, y)
    requires x == n * Bucket.TokenInterval(c.policy) && (y == x || y < Bucket.TokenInterval(c.policy))
    ensures Both(c, after, refAfter, t, 0, if y == x then 0 else y) && |after| <= |ss|
    ensures Refuses(c, after, refAfter, later, 0) ==> Refuses(c, ss, m, Calling(t, n, later), 0)
    decreases n
  {
    after, refAfter := ss, m;
    if n == 0 {
      assert x == 0;
    } else {
      var x', y';
      after, refAfter, x', y' := BurstOne(c, ss, m, t, x, y, n, later);
      if y != x && y' == x' {
        // Nothing is left here, and the reference had nothing to begin with.
        MulMonotone(0, n - 1, Bucket.TokenInterval(c.policy));
        NoTokenBelow(n - 1, Bucket.TokenInterval(c.policy), y) by { Bucket.FullIsWithinInterval(c.policy); }
      }
      after, refAfter := BurstDown(c, after, refAfter, t, x', y', n - 1, later);
    }
  }

  lemma NoTokenBelow(n: nat, tau: int, y: int)
    requires tau > 0 && y == n * tau && y < tau
    ensures y == 0
  {
    if n > 0 { MulMonotone(1, n, tau); }
  }

  /** The first burst: key 0 is alone, and both limiters have nothing left for it. */
  lemma FirstBurst(c: Config, later: seq<Call>) returns (ss: seq<Slot>, m: Buckets)
    requires Valid(c) && c.ttl != 1
    ensures Both(c, ss, m, 0, 0, 0) && |ss| == 1
    ensures Refuses(c, ss, m, later, 0) ==> Refuses(c, [], map[], Calling(0, c.policy.burst, later), 0)
  {
    var n, left := c.policy.burst, Bucket.Full(c.policy) - Bucket.TokenInterval(c.policy);
    Bucket.FullIsWithinInterval(c.policy);
    LessOne(n, Bucket.TokenInterval(c.policy));
    AbsentServes(c, [], 0, []);
    ServeKeepsInv(c, [], 0, 0, 0);
    var one, ref := Fronted(left, 0, []), RefServe(c, map[], 0, 0).0;
    assert one == [Slot(0, Bucket.State(left, 0))];
    var calls := Calling(0, n, later);
    FirstOfCalling(0, n, later);
    RefusesFront(c, [], map[], calls, 0);
    ss, m := BurstDown(c, one, ref, 0, left, left, n - 1, later);
    LookupMember(ss, 0);
  }

  // Other callers, each once, until the limiter is full of them.

  function Crowd(j: nat, n: nat, later: seq<Call>): seq<Call>
    decreases n
  {
    if n == 0 then later else [Call(j + 1, 1)] + Crowd(j + 1, n - 1, later)
  }

  ghost predicate Crowded(c: Config, ss: seq<Slot>, j: nat)
    requires Valid(c)
  {
    && Inv(c, ss, 1) && |ss| == j + 1 && (forall s | s in ss :: s.key <= j)
    && Last(ss).key == 0 && Last(ss).bucket.updatedAt == 0
  }

  lemma NewcomerServed(c: Config, ss: seq<Slot>, j: nat) returns (after: seq<Slot>)
    requires Valid(c) && c.ttl != 1 && Crowded(c, ss, j)
    ensures after == Serve(c, ss, j + 1, 1).0 && Inv(c, after, 1)
    ensures if |ss| == c.capacity then Lookup(after, 0) == None else Crowded(c, after, j + 1)
  {
    after := Serve(c, ss, j + 1, 1).0;
    ServeKeepsInv(c, ss, 1, j + 1, 1);
    LookupMember(ss, j + 1);
    assert Expire(c, ss, 1) == ss;
    var slot := Slot(j + 1, Bucket.Take(c.policy, Bucket.Fresh(c.policy, 1), 1).0);
    if |ss| == c.capacity {
      assert Evict(c, ss) == Front(ss);
      LookupFront(slot, Front(ss), 0);
    } else {
      assert after == [slot] + ss && Last(after) == Last(ss);
    }
  }

  lemma NewcomerIsOther(c: Config, ss: seq<Slot>, m: Buckets, j: nat, rest: seq<Call>)
    returns (after: seq<Slot>, refAfter: Buckets)
    requires Valid(c) && c.ttl != 1 && Crowded(c, ss, j)
    ensures Inv(c, after, 1) && Get(refAfter, 0) == Get(m, 0)
    ensures if |ss| == c.capacity then Lookup(after, 0) == None else Crowded(c, after, j + 1)
    ensures Refuses(c, ss, m, [Call(j + 1, 1)] + rest, 0) <==> Refuses(c, after, refAfter, rest, 0)
  {
    var calls := [Call(j + 1, 1)] + rest;
    assert calls[1..] == rest;
    RefusesFront(c, ss, m, calls, 0);
    after := NewcomerServed(c, ss, j);
    refAfter := RefServe(c, m, j + 1, 1).0;
  }

  lemma {:induction false} CrowdOut(c: Config, ss: seq<Slot>, m: Buckets, j: nat, n: nat, later: seq<Call>)
    returns (after: seq<Slot>, refAfter: Buckets)
    requires Valid(c) && c.ttl != 1 && Crowded(c, ss, j) && n == c.capacity - j
    ensures Inv(c, after, 1) && Lookup(after, 0) == None && Get(refAfter, 0) == Get(m, 0)
    ensures Refuses(c, after, refAfter, later, 0) ==> Refuses(c, ss, m, Crowd(j, n, later), 0)
    decreases n
  {
    after, refAfter := NewcomerIsOther(c, ss, m, j, Crowd(j + 1, n - 1, later));
    if n > 1 { after, refAfter := CrowdOut(c, after, refAfter, j + 1, n - 1, later); }
  }

  /** Key 0 is back: here with a fresh bucket, which it spends, in the reference with a fraction. */
  lemma SecondBurst(
    c: Config, ss: seq<Slot>, m: Buckets, later: seq<Call>)
    returns (after: seq<Slot>, refAfter: Buckets)
    requires Valid(c) && c.ttl != 1 && Bucket.TokenInterval(c.policy) >= 2
    requires Inv(c, ss, 1) && Lookup(ss, 0) == None && Get(m, 0) == Some(Bucket.State(0, 0))
    ensures Both(c, after, refAfter, 1, 0, 1)
    ensures Refuses(c, after, refAfter, later, 0) ==> Refuses(c, ss, m, Calling(1, c.policy.burst, later), 0)
  {
    var n, tau := c.policy.burst, Bucket.TokenInterval(c.policy);
    var left := Bucket.Full(c.policy) - tau;
    Bucket.FullIsWithinInterval(c.policy);
    LessOne(n, tau);
    FirstOfCalling(1, n, later);
    RefusesFront(c, ss, m, Calling(1, n, later), 0);
    ServeKeepsInv(c, ss, 1, 0, 1);
    ServeLookup(c, ss, 0, 1, 0);
    if n >= 2 { MulMonotone(1, n - 1, tau); }
    after, refAfter := BurstDown(c, Serve(c, ss, 0, 1).0, RefServe(c, m, 0, 1).0, 1, left, 1, n - 1, later);
  }

  // One call every nanosecond, which keeps the bucket from expiring.

  function Drip(t: int, n: nat): seq<Call>
    decreases n
  {
    if n == 0 then [] else [Call(0, t + 1)] + Drip(t + 1, n - 1)
  }

  lemma {:induction false} FractionFirst(c: Config, ss: seq<Slot>, m: Buckets, t: int, x: int)
    requires Valid(c) && c.ttl != 1 && Both(c, ss, m, t, x, x + 1) && x + 1 < Bucket.TokenInterval(c.policy)
    ensures Refuses(c, ss, m, Drip(t, Bucket.TokenInterval(c.policy) - 1 - x), 0)
    decreases Bucket.TokenInterval(c.policy) - x
  {
    var tau := Bucket.TokenInterval(c.policy);
    Bucket.FullIsWithinInterval(c.policy);
    var rest := Drip(t + 1, tau - 2 - x);
    assert Drip(t, tau - 1 - x) == [Call(0, t + 1)] + rest;
    var after, refAfter := OwnCall(c, ss, m, t, x, x + 1, 1, rest);
    if x + 2 < tau { FractionFirst(c, after, refAfter, t + 1, x + 1); }
  }

  // ---- The calls are in order of time -----------------------------------------------------------------------

  lemma {:induction false} CallingInOrder(start: int, t: int, n: nat, later: seq<Call>)
    requires start <= t && InOrder(t, later)
    ensures InOrder(start, Calling(t, n, later))
    decreases n
  {
    if n == 0 {
      if later != [] { assert start <= later[0].now; }
    } else {
      CallingInOrder(t, t, n - 1, later);
      FirstOfCalling(t, n, later);
    }
  }

  lemma {:induction false} CrowdInOrder(j: nat, n: nat, later: seq<Call>)
    requires InOrder(1, later)
    ensures InOrder(1, Crowd(j, n, later))
    decreases n
  {
    if n > 0 {
      CrowdInOrder(j + 1, n - 1, later);
      var calls := [Call(j + 1, 1)] + Crowd(j + 1, n - 1, later);
      assert calls[1..] == Crowd(j + 1, n - 1, later);
    }
  }

  lemma {:induction false} DripInOrder(t: int, n: nat)
    ensures InOrder(t, Drip(t, n))
    decreases n
  {
    if n > 0 {
      DripInOrder(t + 1, n - 1);
      var calls := [Call(0, t + 1)] + Drip(t + 1, n - 1);
      assert calls[1..] == Drip(t + 1, n - 1);
    }
  }

  lemma EarlierStart(start: int, t: int, calls: seq<Call>)
    requires InOrder(t, calls) && start <= t
    ensures InOrder(start, calls)
  {
  }

  // A burst, enough other callers to be forgotten, another burst, and patience until the reference
  // has a whole token.

  function Patience(c: Config): seq<Call>
    requires Valid(c)
  {
    Bucket.FullIsWithinInterval(c.policy);
    Drip(1, Bucket.TokenInterval(c.policy) - 1)
  }

  function Back(c: Config): seq<Call>
    requires Valid(c)
  {
    Calling(1, c.policy.burst, Patience(c))
  }

  function Forgotten(c: Config): seq<Call>
    requires Valid(c)
  {
    Calling(0, c.policy.burst, Crowd(0, c.capacity, Back(c)))
  }

  lemma ForgottenInOrder(c: Config)
    requires Valid(c) && Bucket.TokenInterval(c.policy) >= 2
    ensures InOrder(0, Forgotten(c))
  {
    DripInOrder(1, Bucket.TokenInterval(c.policy) - 1);
    CallingInOrder(1, 1, c.policy.burst, Patience(c));
    CrowdInOrder(0, c.capacity, Back(c));
    EarlierStart(0, 1, Crowd(0, c.capacity, Back(c)));
    CallingInOrder(0, 0, c.policy.burst, Crowd(0, c.capacity, Back(c)));
  }

  lemma OnlyZero(c: Config, ss: seq<Slot>)
    requires Valid(c) && |ss| == 1 && Inv(c, ss, 0) && Lookup(ss, 0) == Some(Bucket.State(0, 0))
    ensures Crowded(c, ss, 0)
  {
    LookupMember(ss, 0);
    assert ss == [Last(ss)] && Last(ss) == Slot(0, Bucket.State(0, 0));
  }

  /** Every other limiter refuses the last of these calls. */
  lemma SomethingIsRefused(c: Config) returns (calls: seq<Call>)
    requires Valid(c) && Bucket.TokenInterval(c.policy) >= 2 && c.ttl != 1
    ensures InOrder(0, calls) && Refuses(c, [], map[], calls, 0)
  {
    calls := Forgotten(c);
    ForgottenInOrder(c);
    var ss, m := FirstBurst(c, Crowd(0, c.capacity, Back(c)));
    OnlyZero(c, ss);
    var ss1, m1 := CrowdOut(c, ss, m, 0, c.capacity, Back(c));
    var ss2, m2 := SecondBurst(c, ss1, m1, Patience(c));
    FractionFirst(c, ss2, m2, 1, 0);
  }

  /** The exact condition for the whole limiter: no request the unbounded limiter admits is ever
      refused, over all requests in order of time, if and only if a token takes a single nanosecond
      or the TTL is a single nanosecond. */
  lemma NeverRefusesIff(c: Config)
    requires Valid(c)
    ensures NeverRefuses(c) <==> c.policy.interval / c.policy.burst == 1 || c.ttl == 1
  {
    Bucket.FullIsWithinInterval(c.policy);
    if Bucket.TokenInterval(c.policy) == 1 || c.ttl == 1 {
      forall start, calls, k | InOrder(start, calls) ensures !Refuses(c, [], map[], calls, k) {
        AheadNeverRefuses(c, [], map[], start, calls, k);
      }
    } else {
      var calls := SomethingIsRefused(c);
    }
  }
}
