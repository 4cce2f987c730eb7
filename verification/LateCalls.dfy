/** Idle expiry on a clock that may go back: the clock is read before the lock is taken, so a call
    can arrive with a time up to some `d` behind the latest one. */
module LateCalls {
  import opened Common
  import opened Limiter
  import opened LimiterTheorems
  import opened LimiterComparison
  import opened LimiterTransparency
  import opened AnyClock
  import Bucket

  /** No call is more than `d` behind an earlier one. */
  predicate Lags(d: nat, calls: seq<Call>) { forall i, j | 0 <= i < j < |calls| :: calls[i].now - d <= calls[j].now }

  predicate NotBefore(t: int, calls: seq<Call>) { forall i | 0 <= i < |calls| :: t <= calls[i].now }

  /** A bucket that expired is full by the time its caller can be served again. With a single slot
      its caller has to wait for another entry to expire as well. */
  predicate Patient(c: Config, d: nat)
    requires Valid(c)
  {
    var full := Bucket.Full(c.policy);
    || c.ttl == 0
    || (c.capacity >= 2 && c.ttl >= full + d)
    || (c.capacity == 1 && c.ttl >= full && 2 * c.ttl >= full + d)
  }

  /** The decisions of the reference, for every caller and every sequence that evicts nobody. */
  ghost predicate Unseen(c: Config, d: nat)
    requires Valid(c)
  {
    forall calls, k | Lags(d, calls) && Evictless(c, calls) :: Faithful(c, calls, k)
  }

  predicate Evictless(c: Config, calls: seq<Call>)
    requires Valid(c)
  {
    NoEviction(c, [], calls)
  }

  // ---- Enough patience ------------------------------------------------------------------------------------

  /** An entry that is not stale survives, whatever the order of the list. */
  lemma {:induction false} YoungSurvives(c: Config, ss: seq<Slot>, now: int, k: Key)
    requires DistinctKeys(ss) && Lookup(ss, k).Some? && !Stale(c, Slot(k, Lookup(ss, k).value), now)
    ensures Lookup(Expire(c, ss, now), k) == Lookup(ss, k)
  {
    if Stale(c, Last(ss), now) {
      assert Last(ss).key != k;
      YoungSurvives(c, Front(ss), now, k);
    }
  }

  /** While no call is served without room, only expiry drops a bucket. */
  lemma KeptUnlessStale(c: Config, ss: seq<Slot>, call: Call, k: Key)
    requires Valid(c) && DistinctKeys(ss)
    requires Lookup(Expire(c, ss, call.now), call.key).Some? || |Expire(c, ss, call.now)| < c.capacity
    ensures var kept := Lookup(Kept(c, ss, call.key, call.now), k);
            && (kept == Lookup(ss, k) || kept.None?)
            && (Lookup(ss, k).Some? && kept.None? ==> Stale(c, Slot(k, Lookup(ss, k).value), call.now))
  {
    ExpireCuts(c, ss, call.now, k);
    if Lookup(ss, k).Some? && !Stale(c, Slot(k, Lookup(ss, k).value), call.now) { YoungSurvives(c, ss, call.now, k); }
  }

  /** How the two limiters agree on a key. `latest` is the latest time so far. */
  ghost predicate Agree(
    c: Config, d: nat, ss: seq<Slot>, mine: Option<Bucket.State>, theirs: Option<Bucket.State>, latest: int)
    requires Valid(c)
  {
    && (theirs.Some? ==> Bucket.Ok(c.policy, theirs.value) && theirs.value.updatedAt <= latest && ss != [])
    && (mine.Some? ==> theirs == mine)
    && (mine.None? && theirs.Some? ==> c.ttl > 0 && latest >= theirs.value.updatedAt + c.ttl)
    && (c.capacity == 1 && ss != [] ==> |ss| == 1 && ss[0].bucket.updatedAt >= latest - d)
  }

  function Max(a: int, b: int): int { if a < b then b else a }

  /** A caller served without its bucket finds it full in the reference. */
  lemma AbsentIsFull(c: Config, d: nat, ss: seq<Slot>, m: Buckets, call: Call, latest: int)
    requires Valid(c) && Patient(c, d) && DistinctKeys(ss) && latest - d <= call.now
    requires Agree(c, d, ss, Lookup(ss, call.key), Get(m, call.key), latest) && call.key in m
    requires Lookup(Expire(c, ss, call.now), call.key).Some? || |Expire(c, ss, call.now)| < c.capacity
    requires Lookup(Kept(c, ss, call.key, call.now), call.key).None?
    ensures Bucket.Refill(c.policy, m[call.key], call.now) == Bucket.Full(c.policy)
  {
    Bucket.FullIsWithinInterval(c.policy);
    KeptUnlessStale(c, ss, call, call.key);
    if Lookup(ss, call.key).None? && c.capacity == 1 { OnlyOneExpires(c, ss, call); }
  }

  lemma OnlyOneExpires(c: Config, ss: seq<Slot>, call: Call)
    requires Valid(c) && |ss| == 1 && c.capacity == 1 && Lookup(ss, call.key).None?
    requires Lookup(Expire(c, ss, call.now), call.key).Some? || |Expire(c, ss, call.now)| < c.capacity
    ensures Stale(c, ss[0], call.now)
  {
  }

  lemma OwnCallAgrees(c: Config, d: nat, ss: seq<Slot>, m: Buckets, call: Call, latest: int)
    requires Valid(c) && Patient(c, d) && DistinctKeys(ss) && latest - d <= call.now
    requires Agree(c, d, ss, Lookup(ss, call.key), Get(m, call.key), latest)
    requires Lookup(Expire(c, ss, call.now), call.key).Some? || |Expire(c, ss, call.now)| < c.capacity
    ensures var (after, x) := Serve(c, ss, call.key, call.now);
            var (refAfter, y) := RefServe(c, m, call.key, call.now);
            x == y && Lookup(after, call.key) == Get(refAfter, call.key)
  {
    ServeLookup(c, ss, call.key, call.now, call.key);
    Bucket.FullIsWithinInterval(c.policy);
    if Lookup(Kept(c, ss, call.key, call.now), call.key).None? && call.key in m {
      AbsentIsFull(c, d, ss, m, call, latest);
    }
  }

  /** With one slot, the entry of the last call is alone. */
  lemma OneSlot(c: Config, ss: seq<Slot>, call: Call)
    requires Valid(c) && DistinctKeys(ss) && c.capacity == 1 && |ss| <= 1
    ensures var after := Serve(c, ss, call.key, call.now).0;
            |after| == 1 && after[0].bucket.updatedAt == call.now
  {
    ExpireCuts(c, ss, call.now, call.key);
    EvictCuts(c, Expire(c, ss, call.now), call.key);
  }

  lemma CallAgrees(c: Config, d: nat, ss: seq<Slot>, m: Buckets, call: Call, k: Key, latest: int)
    requires Valid(c) && Patient(c, d) && DistinctKeys(ss) && latest - d <= call.now
    requires Agree(c, d, ss, Lookup(ss, k), Get(m, k), latest)
    requires Lookup(Expire(c, ss, call.now), call.key).Some? || |Expire(c, ss, call.now)| < c.capacity
    ensures var (after, x) := Serve(c, ss, call.key, call.now);
            var (refAfter, y) := RefServe(c, m, call.key, call.now);
            && DistinctKeys(after) && (call.key == k ==> x == y)
            && Agree(c, d, after, Lookup(after, k), Get(refAfter, k), Max(latest, call.now))
  {
    ServeLookup(c, ss, call.key, call.now, k);
    KeptUnlessStale(c, ss, call, k);
    if c.capacity == 1 { OneSlot(c, ss, call); }
    if call.key == k {
      OwnCallAgrees(c, d, ss, m, call, latest);
      SpentIsOk(c, Get(m, k), call.now);
    }
  }

  lemma SpentIsOk(c: Config, held: Option<Bucket.State>, now: int)
    requires Valid(c) && (held.Some? ==> Bucket.Ok(c.policy, held.value))
    ensures var spent := Bucket.Take(c.policy, Start(c, held, now), now).0;
            Bucket.Ok(c.policy, spent) && spent.updatedAt == now
  {
    Bucket.FullIsWithinInterval(c.policy);
    Bucket.TakeKeepsOk(c.policy, Start(c, held, now), now);
  }

  lemma {:induction false} PatientIsUnseen(
    c: Config, d: nat, ss: seq<Slot>, m: Buckets, calls: seq<Call>, k: Key, latest: int)
    requires Valid(c) && Patient(c, d) && DistinctKeys(ss) && NoEviction(c, ss, calls)
    requires Lags(d, calls) && NotBefore(latest - d, calls)
    requires Agree(c, d, ss, Lookup(ss, k), Get(m, k), latest)
    ensures Decisions(c, ss, calls, k) == RefDecisions(c, m, calls, k)
    decreases |calls|
  {
    if calls != [] {
      var call := calls[0];
      CallAgrees(c, d, ss, m, call, k, latest);
      PatientIsUnseen(c, d, Serve(c, ss, call.key, call.now).0, RefServe(c, m, call.key, call.now).0, calls[1..], k,
                      Max(latest, call.now));
    }
  }

  /** Enough patience hides every expiry. */
  lemma PatientLimiterIsExact(c: Config, d: nat, calls: seq<Call>, k: Key)
    requires Valid(c) && Patient(c, d) && Lags(d, calls) && Evictless(c, calls)
    ensures Faithful(c, calls, k)
  {
    if calls != [] { PatientIsUnseen(c, d, [], map[], calls, k, calls[0].now); }
  }

  /** And with capacity for every caller there is nothing else to see. */
  lemma SizedAndPatientIsExact(c: Config, d: nat, calls: seq<Call>, keys: set<Key>, k: Key)
    requires Valid(c) && Patient(c, d) && Lags(d, calls)
    requires |keys| <= c.capacity && forall call | call in calls :: call.key in keys
    ensures Faithful(c, calls, k)
  {
    FewKeysNoEviction(c, [], calls, keys);
    PatientLimiterIsExact(c, d, calls, k);
  }

  // ---- Too little patience ----------------------------------------------------------------------------------

  /** Key 0 in front, with `rest` behind it. */
  function Fronted(x: int, t: int, rest: seq<Slot>): seq<Slot> { [Slot(0, Bucket.State(x, t))] + rest }

  /** What is behind key 0: nothing, or one entry too young to expire. */
  predicate Behind(c: Config, rest: seq<Slot>, t: int) {
    rest == [] || (|rest| == 1 && rest[0].key != 0 && !Stale(c, rest[0], t))
  }

  /** Key 0 calls `n` times at `t`, before the other calls. */
  function Calling(t: int, n: nat, later: seq<Call>): seq<Call> {
    if n == 0 then later else [Call(0, t)] + Calling(t, n - 1, later)
  }

  lemma FirstOfCalling(t: int, n: nat, later: seq<Call>)
    requires n > 0
    ensures Calling(t, n, later) != [] && Calling(t, n, later)[0] == Call(0, t)
    ensures Calling(t, n, later)[1..] == Calling(t, n - 1, later)
  {
  }

  lemma OneCall(c: Config, ss: seq<Slot>, next: seq<Slot>, t: int, n: nat, later: seq<Call>)
    requires Valid(c) && n > 0 && Serve(c, ss, 0, t) == (next, Bucket.Decision(true, 0))
    requires Lookup(Expire(c, ss, t), 0).Some? || |Expire(c, ss, t)| < c.capacity
    ensures Count(Decisions(c, ss, Calling(t, n, later), 0))
            == 1 + Count(Decisions(c, next, Calling(t, n - 1, later), 0))
    ensures NoEviction(c, next, Calling(t, n - 1, later)) ==> NoEviction(c, ss, Calling(t, n, later))
  {
    FirstOfCalling(t, n, later);
    FirstCall(c, ss, Calling(t, n, later), 0);
  }

  /** Calls at one instant on the bucket in front are admitted while its credit lasts. */
  lemma {:induction false} SpendFront(c: Config, x: int, t: int, rest: seq<Slot>, n: nat, later: seq<Call>)
    requires Valid(c) && Behind(c, rest, t) && x == n * Bucket.TokenInterval(c.policy)
    ensures Count(Decisions(c, Fronted(x, t, rest), Calling(t, n, later), 0))
            == n + Count(Decisions(c, Fronted(0, t, rest), later, 0))
    ensures NoEviction(c, Fronted(0, t, rest), later) ==> NoEviction(c, Fronted(x, t, rest), Calling(t, n, later))
    decreases n
  {
    if n == 0 {
      assert x == 0 && Calling(t, n, later) == later;
    } else {
      var y := SpendOne(c, x, t, rest, n, later);
      SpendFront(c, y, t, rest, n - 1, later);
    }
  }

  lemma SpendOne(c: Config, x: int, t: int, rest: seq<Slot>, n: nat, later: seq<Call>) returns (y: int)
    requires Valid(c) && Behind(c, rest, t) && n > 0 && x == n * Bucket.TokenInterval(c.policy)
    ensures y == (n - 1) * Bucket.TokenInterval(c.policy)
    ensures Count(Decisions(c, Fronted(x, t, rest), Calling(t, n, later), 0))
            == 1 + Count(Decisions(c, Fronted(y, t, rest), Calling(t, n - 1, later), 0))
    ensures NoEviction(c, Fronted(y, t, rest), Calling(t, n - 1, later))
            ==> NoEviction(c, Fronted(x, t, rest), Calling(t, n, later))
  {
    y := x - Bucket.TokenInterval(c.policy);
    LessOne(n, Bucket.TokenInterval(c.policy));
    Bucket.FullIsWithinInterval(c.policy);
    FrontServes(c, x, t, rest);
    OneCall(c, Fronted(x, t, rest), Fronted(y, t, rest), t, n, later);
  }

  lemma LessOne(n: nat, tau: int)
    requires n > 0 && tau > 0
    ensures n * tau - tau == (n - 1) * tau && n * tau >= tau
  {
    assert n * tau == (n - 1) * tau + tau;
    MulMonotone(0, n - 1, tau);
  }

  lemma FrontServes(c: Config, x: int, t: int, rest: seq<Slot>)
    requires Valid(c) && Bucket.TokenInterval(c.policy) <= x
    requires Behind(c, rest, t)
    ensures var ss := Fronted(x, t, rest);
            && Lookup(Expire(c, ss, t), 0).Some?
            && Serve(c, ss, 0, t) == (Fronted(x - Bucket.TokenInterval(c.policy), t, rest), Bucket.Decision(true, 0))
  {
    var s := Slot(0, Bucket.State(x, t));
    var ss := [s] + rest;
    assert Expire(c, ss, t) == ss;
    if rest == [] {
      assert ss == [s] && Front(ss) == [] && Remove(ss, 0) == [];
    } else {
      assert Front(ss) == [s] && Last(ss) == rest[0] && Front([s]) == [];
      assert Remove([s], 0) == [] && Remove(ss, 0) == [] + rest == rest;
    }
  }

  /** A full burst of a caller whose bucket is absent, where there is room for it. */
  lemma BurstFromAbsent(c: Config, ss: seq<Slot>, t: int, rest: seq<Slot>, later: seq<Call>)
    requires Valid(c) && Behind(c, rest, t)
    requires Expire(c, ss, t) == rest && |rest| < c.capacity
    ensures var n := c.policy.burst;
            && Count(Decisions(c, ss, Calling(t, n, later), 0))
               == n + Count(Decisions(c, Fronted(0, t, rest), later, 0))
            && (NoEviction(c, Fronted(0, t, rest), later) ==> NoEviction(c, ss, Calling(t, n, later)))
  {
    var n, full := c.policy.burst, Bucket.Full(c.policy);
    LessOne(n, Bucket.TokenInterval(c.policy)) by { Bucket.FullIsWithinInterval(c.policy); }
    var left := full - Bucket.TokenInterval(c.policy);
    AbsentServes(c, ss, t, rest);
    OneCall(c, ss, Fronted(left, t, rest), t, n, later);
    SpendFront(c, left, t, rest, n - 1, later);
  }

  lemma AbsentServes(c: Config, ss: seq<Slot>, t: int, rest: seq<Slot>)
    requires Valid(c) && Behind(c, rest, t) && Expire(c, ss, t) == rest && |rest| < c.capacity
    ensures Serve(c, ss, 0, t)
            == (Fronted(Bucket.Full(c.policy) - Bucket.TokenInterval(c.policy), t, rest), Bucket.Decision(true, 0))
  {
    Bucket.FullIsWithinInterval(c.policy);
    if rest != [] { assert Front(rest) == []; }
    assert Lookup(rest, 0) == None && Evict(c, rest) == rest;
  }

  /** Another caller, where there is room. */
  lemma OtherCall(c: Config, ss: seq<Slot>, next: seq<Slot>, t: int, later: seq<Call>)
    requires Valid(c) && Serve(c, ss, 1, t).0 == next
    requires Lookup(Expire(c, ss, t), 1).Some? || |Expire(c, ss, t)| < c.capacity
    ensures Count(Decisions(c, ss, [Call(1, t)] + later, 0)) == Count(Decisions(c, next, later, 0))
    ensures NoEviction(c, next, later) ==> NoEviction(c, ss, [Call(1, t)] + later)
  {
    assert ([Call(1, t)] + later)[1..] == later;
    FirstCall(c, ss, [Call(1, t)] + later, 0);
  }

  /** The second burst, `v` being the earliest time at which its caller can be served again. */
  function Return(c: Config, d: nat): int {
    if c.capacity >= 2 then c.ttl - d else 2 * c.ttl - d
  }

  function Others(c: Config, d: nat, later: seq<Call>): seq<Call> {
    if c.capacity >= 2 then [Call(1, c.ttl)] + later
    else [Call(1, c.ttl)] + ([Call(1, c.ttl - d)] + later)
  }

  /** One caller spends a burst; another one calls when its bucket has expired, and with a single
      slot once more, as late as the clock allows; then the first caller is back too early. */
  function Early(c: Config, d: nat): seq<Call>
    requires Valid(c)
  {
    Calling(0, c.policy.burst, Others(c, d, Calling(Return(c, d), c.policy.burst, [])))
  }

  /** The other caller takes the place of the expired bucket. */
  lemma OtherReplaces(c: Config) returns (first: seq<Slot>)
    requires Valid(c) && c.ttl > 0
    ensures |first| == 1 && first[0].key == 1 && first[0].bucket.updatedAt == c.ttl
    ensures Expire(c, Fronted(0, 0, []), c.ttl) == [] && Serve(c, Fronted(0, 0, []), 1, c.ttl).0 == first
  {
    var spent := Bucket.Take(c.policy, Bucket.Fresh(c.policy, c.ttl), c.ttl).0;
    first := [Slot(1, spent)];
    assert Fronted(0, 0, []) == [Slot(0, Bucket.State(0, 0))] && Front(Fronted(0, 0, [])) == [];
    assert [Slot(1, spent)] + [] == first;
  }

  /** And calls once more, out of order. */
  lemma OtherIsLate(c: Config, d: nat, first: seq<Slot>) returns (rest: seq<Slot>)
    requires Valid(c) && c.ttl > 0 && |first| == 1 && first[0].key == 1 && first[0].bucket.updatedAt == c.ttl
    ensures Lookup(Expire(c, first, c.ttl - d), 1).Some? && Serve(c, first, 1, c.ttl - d).0 == rest
    ensures |rest| == 1 && rest[0].key == 1 && rest[0].bucket.updatedAt == c.ttl - d
  {
    rest := Serve(c, first, 1, c.ttl - d).0;
    assert Front(first) == [] && Remove(first, 1) == [];
  }

  lemma OneExpires(c: Config, rest: seq<Slot>, t: int)
    requires |rest| == 1
    ensures Expire(c, rest, t) == if Stale(c, rest[0], t) then [] else rest
  {
    assert Front(rest) == [];
  }

  lemma OthersReplace(c: Config, d: nat, later: seq<Call>) returns (rest: seq<Slot>)
    requires Valid(c) && c.ttl > 0
    ensures Behind(c, Expire(c, rest, Return(c, d)), Return(c, d)) && |Expire(c, rest, Return(c, d))| < c.capacity
    ensures Count(Decisions(c, Fronted(0, 0, []), Others(c, d, later), 0)) == Count(Decisions(c, rest, later, 0))
    ensures NoEviction(c, rest, later) ==> NoEviction(c, Fronted(0, 0, []), Others(c, d, later))
  {
    rest := OtherReplaces(c);
    if c.capacity >= 2 {
      OtherCall(c, Fronted(0, 0, []), rest, c.ttl, later);
    } else {
      var first := rest;
      rest := OtherIsLate(c, d, first);
      OtherCall(c, first, rest, c.ttl - d, later);
      OtherCall(c, Fronted(0, 0, []), first, c.ttl, [Call(1, c.ttl - d)] + later);
    }
    OneExpires(c, rest, Return(c, d));
  }

  /** The bounded limiter admits both bursts in full. */
  lemma EarlyIsAdmitted(c: Config, d: nat)
    requires Valid(c) && c.ttl > 0
    ensures Count(Decisions(c, [], Early(c, d), 0)) == c.policy.burst + c.policy.burst && Evictless(c, Early(c, d))
  {
    var n, v := c.policy.burst, Return(c, d);
    var second := Calling(v, n, []);
    var rest := OthersReplace(c, d, second);
    BurstFromAbsent(c, rest, v, Expire(c, rest, v), []);
    BurstFromAbsent(c, [], 0, [], Others(c, d, second));
  }

  // ---- What the reference makes of the same calls -----------------------------------------------------------

  lemma {:induction false} CallingTimes(t: int, n: nat, later: seq<Call>)
    ensures Times(Calling(t, n, later), 0) == Repeat(t, n) + Times(later, 0)
    decreases n
  {
    var ts := Times(later, 0);
    if n == 0 {
      assert Repeat(t, 0) == [] && [] + ts == ts;
    } else {
      CallingTimes(t, n - 1, later);
      OneTime(t, n, later);
      RepeatFront(t, n, ts);
    }
  }

  lemma OneTime(t: int, n: nat, later: seq<Call>)
    requires n > 0
    ensures Times(Calling(t, n, later), 0) == [t] + Times(Calling(t, n - 1, later), 0)
  {
    FirstOfCalling(t, n, later);
  }

  lemma RepeatFront(t: int, n: nat, ts: seq<int>)
    requires n > 0
    ensures Repeat(t, n) + ts == [t] + (Repeat(t, n - 1) + ts)
  {
    assert Repeat(t, n) == [t] + Repeat(t, n - 1);
  }

  lemma OthersTimes(c: Config, d: nat, later: seq<Call>)
    ensures Times(Others(c, d, later), 0) == Times(later, 0)
  {
    assert ([Call(1, c.ttl)] + later)[1..] == later;
    assert ([Call(1, c.ttl - d)] + later)[1..] == later;
    var two := [Call(1, c.ttl)] + ([Call(1, c.ttl - d)] + later);
    assert two[1..] == [Call(1, c.ttl - d)] + later;
  }

  lemma {:induction false} ForwardOfRepeat(start: int, t: int, n: nat, ts: seq<int>)
    ensures Bucket.Forward(start, Repeat(t, n) + ts)
            == if n == 0 then Bucket.Forward(start, ts) else Max(0, t - start) + Bucket.Forward(t, ts)
    decreases n
  {
    var all := Repeat(t, n) + ts;
    if n == 0 {
      assert all == ts;
    } else {
      assert all[0] == t && all[1..] == Repeat(t, n - 1) + ts;
      ForwardOfRepeat(t, t, n - 1, ts);
    }
  }

  /** The reference has refilled for `v` only. */
  lemma EarlyIsPaidFor(c: Config, d: nat)
    requires Valid(c)
    ensures Count(RefDecisions(c, map[], Early(c, d), 0)) * Bucket.TokenInterval(c.policy)
            <= Bucket.Full(c.policy) + Max(0, Return(c, d))
  {
    var n, v := c.policy.burst, Return(c, d);
    var second := Calling(v, n, []);
    CallingTimes(0, n, Others(c, d, second));
    OthersTimes(c, d, second);
    CallingTimes(v, n, []);
    var ts := Times(Early(c, d), 0);
    assert ts == Repeat(0, n) + (Repeat(v, n) + []);
    RefIsBucket(c, map[], Early(c, d), 0);
    CountIsAdmitted(c.policy, Bucket.Fresh(c.policy, 0), ts);
    Bucket.FullIsWithinInterval(c.policy);
    Bucket.AdmissionsArePaid(c.policy, Bucket.Fresh(c.policy, 0), ts);
    ForwardOfRepeat(0, 0, n, Repeat(v, n) + []);
    ForwardOfRepeat(0, v, n, []);
    assert ts[0] == 0;
  }

  // ---- The calls keep to the clock ------------------------------------------------------------------------

  lemma LagsFront(d: nat, call: Call, later: seq<Call>)
    requires Lags(d, later) && NotBefore(call.now - d, later)
    ensures Lags(d, [call] + later)
  {
  }

  lemma {:induction false} CallingNotBefore(lo: int, t: int, n: nat, later: seq<Call>)
    requires lo <= t && NotBefore(lo, later)
    ensures NotBefore(lo, Calling(t, n, later))
    decreases n
  {
    if n > 0 { CallingNotBefore(lo, t, n - 1, later); }
  }

  lemma {:induction false} CallingLags(d: nat, t: int, n: nat, later: seq<Call>)
    requires Lags(d, later) && NotBefore(t - d, later)
    ensures Lags(d, Calling(t, n, later))
    decreases n
  {
    if n > 0 {
      CallingLags(d, t, n - 1, later);
      CallingNotBefore(t - d, t, n - 1, later);
      LagsFront(d, Call(0, t), Calling(t, n - 1, later));
    }
  }

  lemma EarlyLags(c: Config, d: nat)
    requires Valid(c) && c.ttl > 0
    ensures Lags(d, Early(c, d))
  {
    var n, v := c.policy.burst, Return(c, d);
    var second := Calling(v, n, []);
    CallingLags(d, v, n, []);
    CallingNotBefore(c.ttl - d, v, n, []);
    OthersLag(c, d, second);
    CallingLags(d, 0, n, Others(c, d, second));
  }

  lemma OthersLag(c: Config, d: nat, later: seq<Call>)
    requires c.ttl > 0 && Lags(d, later) && NotBefore(c.ttl - d, later)
    ensures Lags(d, Others(c, d, later)) && NotBefore(-(d as int), Others(c, d, later))
  {
    if c.capacity >= 2 {
      LagsFront(d, Call(1, c.ttl), later);
    } else {
      LagsFront(d, Call(1, c.ttl - d), later);
      LagsFront(d, Call(1, c.ttl), [Call(1, c.ttl - d)] + later);
    }
  }

  lemma {:induction false} OrderedLags(start: int, d: nat, calls: seq<Call>)
    requires InOrder(start, calls)
    ensures Lags(d, calls) && NotBefore(start, calls)
    decreases |calls|
  {
    if calls != [] {
      OrderedLags(calls[0].now, d, calls[1..]);
      LagsFront(d, calls[0], calls[1..]);
      assert calls == [calls[0]] + calls[1..];
    }
  }

  /** Any less patience is noticed by some caller. */
  lemma ImpatientIsSeen(c: Config, d: nat) returns (calls: seq<Call>)
    requires Valid(c) && !Patient(c, d)
    ensures Lags(d, calls) && Evictless(c, calls) && !Faithful(c, calls, 0)
  {
    Bucket.FullIsWithinInterval(c.policy);
    if Return(c, d) < Bucket.Full(c.policy) {
      calls := Early(c, d);
      EarlyLags(c, d);
      EarlyIsAdmitted(c, d);
      EarlyIsPaidFor(c, d);
      TwiceIsTooMuch(c.policy.burst, Bucket.TokenInterval(c.policy), Max(0, Return(c, d)),
                     Count(RefDecisions(c, map[], calls, 0)));
    } else {
      calls := ImpatientTtlIsSeen(c);
      OrderedLags(0, d, calls);
    }
  }

  /** On a clock that may go back by `d`, for every configuration: idle expiry is unobservable, for
      every caller and every sequence of requests that evicts nobody, exactly when the TTL is off,
      or leaves `d` more than the time a bucket takes to refill - or, with a single slot, twice the
      TTL does and the TTL itself is no less than that time. */
  lemma UnseenIff(c: Config, d: nat)
    requires Valid(c)
    ensures Unseen(c, d) <==> Patient(c, d)
  {
    if Patient(c, d) {
      forall calls, k | Lags(d, calls) && Evictless(c, calls) ensures Faithful(c, calls, k) {
        PatientLimiterIsExact(c, d, calls, k);
      }
    } else {
      var calls := ImpatientIsSeen(c, d);
    }
  }
}
