/** When a caller can tell the bounded limiter from the reference at all. */
module LimiterTransparency {
  import opened Common
  import opened Limiter
  import opened LimiterTheorems
  import opened LimiterComparison
  import Bucket

  /** The caller `k` got exactly the decisions of the reference. */
  predicate Faithful(c: Config, calls: seq<Call>, k: Key)
    requires Valid(c)
  {
    Decisions(c, [], calls, k) == RefDecisions(c, map[], calls, k)
  }

  /** Requests in order of time that evict nobody. */
  predicate Roomy(c: Config, start: int, calls: seq<Call>)
    requires Valid(c)
  {
    InOrder(start, calls) && NoEviction(c, [], calls)
  }

  /** At every call there is room for its key without evicting another one. */
  predicate NoEviction(c: Config, ss: seq<Slot>, calls: seq<Call>)
    requires Valid(c)
    decreases |calls|
  {
    calls == [] ||
    var call := calls[0];
    && (Lookup(Expire(c, ss, call.now), call.key).Some? || |Expire(c, ss, call.now)| < c.capacity)
    && NoEviction(c, Serve(c, ss, call.key, call.now).0, calls[1..])
  }

  /** An idle bucket has refilled by the time it expires. */
  predicate PatientTtl(c: Config)
    requires Valid(c)
  {
    c.ttl == 0 || c.ttl >= Bucket.Full(c.policy)
  }

  /** The bound the configuration enforces, a TTL of at least the refill interval, is enough. */
  lemma IntervalIsPatient(c: Config)
    requires Valid(c) && (c.ttl == 0 || c.ttl >= c.policy.interval)
    ensures PatientTtl(c)
  {
    Bucket.FullIsWithinInterval(c.policy);
  }

  // ---- Idle expiry ------------------------------------------------------------------------------------

  lemma ExpiryKeepsYoung(c: Config, ss: seq<Slot>, t: int, now: int, k: Key)
    requires Valid(c) && Inv(c, ss, t) && Lookup(ss, k).Some?
    requires !Stale(c, Slot(k, Lookup(ss, k).value), now)
    ensures Lookup(Expire(c, ss, now), k) == Lookup(ss, k)
  {
    LookupMember(ss, k);
    ExpiryIsExact(c, ss, now);
    LookupMember(Expire(c, ss, now), k);
    ExpireCuts(c, ss, now, k);
  }

  lemma NothingLostWhenIdle(c: Config, ss: seq<Slot>, t: int, call: Call, k: Key)
    requires Valid(c) && PatientTtl(c) && Inv(c, ss, t) && t <= call.now
    requires Lookup(Expire(c, ss, call.now), call.key).Some? || |Expire(c, ss, call.now)| < c.capacity
    ensures !Lost(c, ss, call, k)
  {
    if Lookup(ss, k).Some? {
      var slot := Slot(k, Lookup(ss, k).value);
      LookupMember(ss, k);
      if !Stale(c, slot, call.now) { ExpiryKeepsYoung(c, ss, t, call.now, k); }
    }
  }

  lemma {:induction false} NoEvictionNoLoss(c: Config, ss: seq<Slot>, t: int, calls: seq<Call>, k: Key)
    requires Valid(c) && PatientTtl(c) && Inv(c, ss, t) && InOrder(t, calls) && NoEviction(c, ss, calls)
    ensures Losses(c, ss, calls, k) == 0
    decreases |calls|
  {
    if calls != [] {
      var call := calls[0];
      NothingLostWhenIdle(c, ss, t, call, k);
      ServeKeepsInv(c, ss, t, call.key, call.now);
      NoEvictionNoLoss(c, Serve(c, ss, call.key, call.now).0, call.now, calls[1..], k);
    }
  }

  /** With a patient TTL and no eviction, the whole decision sequence is the reference's. */
  lemma IdleExpiryIsUnseen(c: Config, start: int, calls: seq<Call>, k: Key)
    requires Valid(c) && PatientTtl(c) && Roomy(c, start, calls)
    ensures Faithful(c, calls, k)
  {
    NoEvictionNoLoss(c, [], start, calls, k);
    NothingLostNothingSeen(c, start, calls, k);
  }

  // ---- Sized above its callers, the limiter never evicts ----------------------------------------------

  function KeysOf(ss: seq<Slot>): set<Key> { if ss == [] then {} else KeysOf(Front(ss)) + {Last(ss).key} }

  lemma {:induction false} KeyCount(ss: seq<Slot>)
    requires DistinctKeys(ss)
    ensures |KeysOf(ss)| == |ss| && forall k :: k in KeysOf(ss) <==> Lookup(ss, k).Some?
  {
    if ss != [] { KeyCount(Front(ss)); }
  }

  lemma RoomForKnownKeys(c: Config, ss: seq<Slot>, call: Call, keys: set<Key>)
    requires Valid(c) && DistinctKeys(ss) && KeysOf(ss) <= keys && call.key in keys && |keys| <= c.capacity
    ensures Lookup(Expire(c, ss, call.now), call.key).Some? || |Expire(c, ss, call.now)| < c.capacity
    ensures KeysOf(Serve(c, ss, call.key, call.now).0) <= keys
  {
    var young := Expire(c, ss, call.now);
    ExpireCuts(c, ss, call.now, call.key);
    forall k ensures Lookup(young, k).Some? ==> Lookup(ss, k).Some? { ExpireCuts(c, ss, call.now, k); }
    KeyCount(ss);
    KeyCount(young);
    if Lookup(young, call.key).None? {
      SubsetSize(KeysOf(young), keys - {call.key});
    }
    forall k | k in KeysOf(Serve(c, ss, call.key, call.now).0) ensures k in keys {
      ServeLookup(c, ss, call.key, call.now, k);
      KeyCount(Serve(c, ss, call.key, call.now).0);
    }
  }

  lemma {:induction false} FewKeysNoEviction(c: Config, ss: seq<Slot>, calls: seq<Call>, keys: set<Key>)
    requires Valid(c) && DistinctKeys(ss) && KeysOf(ss) <= keys && |keys| <= c.capacity
    requires forall call | call in calls :: call.key in keys
    ensures NoEviction(c, ss, calls)
    decreases |calls|
  {
    if calls != [] {
      RoomForKnownKeys(c, ss, calls[0], keys);
      ServeLookup(c, ss, calls[0].key, calls[0].now, calls[0].key);
      FewKeysNoEviction(c, Serve(c, ss, calls[0].key, calls[0].now).0, calls[1..], keys);
    }
  }

  /** A limiter with room for every caller it will see is the reference. */
  lemma SizedAboveCallersIsExact(c: Config, start: int, calls: seq<Call>, keys: set<Key>, k: Key)
    requires Valid(c) && PatientTtl(c) && InOrder(start, calls)
    requires |keys| <= c.capacity && forall call | call in calls :: call.key in keys
    ensures Faithful(c, calls, k)
  {
    FewKeysNoEviction(c, [], calls, keys);
    IdleExpiryIsUnseen(c, start, calls, k);
  }

  // ---- An impatient TTL is always noticed ---------------------------------------------------------------

  lemma RefCallIsPaid(c: Config, m: Buckets, t: int, call: Call, k: Key)
    requires Valid(c) && Sound(c, Get(m, k), t) && t <= call.now
    ensures var (after, d) := RefServe(c, m, call.key, call.now);
            && Sound(c, Get(after, k), call.now)
            && (if call.key == k && d.allowed then Bucket.TokenInterval(c.policy) else 0)
               + Credit(c, Get(after, k), call.now)
               <= Credit(c, Get(m, k), t) + (call.now - t)
  {
    CreditGrows(c, Get(m, k), t, call.now);
    RefServeCredit(c, m, t, call, k);
    TakeOfCredit(c, Credit(c, Get(m, k), call.now), call.now);
  }

  /** What the reference admits is paid for by credit and by elapsed time. */
  lemma {:induction false} RefAdmissionsArePaid(c: Config, m: Buckets, t: int, calls: seq<Call>, k: Key, end: int)
    requires Valid(c) && Sound(c, Get(m, k), t) && InOrder(t, calls) && t <= end
    requires forall call | call in calls :: call.now <= end
    ensures Count(RefDecisions(c, m, calls, k)) * Bucket.TokenInterval(c.policy) <= Credit(c, Get(m, k), t) + (end - t)
    decreases |calls|
  {
    CreditGrows(c, Get(m, k), t, t);
    if calls != [] {
      var call := calls[0];
      var (after, d) := RefServe(c, m, call.key, call.now);
      RefCallIsPaid(c, m, t, call, k);
      RefFirstCall(c, m, calls, k);
      RefAdmissionsArePaid(c, after, call.now, calls[1..], k, end);
      OneMore(Admit(call.key == k && d.allowed), Count(RefDecisions(c, after, calls[1..], k)),
              Bucket.TokenInterval(c.policy));
    }
  }

  lemma OneMore(a: int, n: int, tau: int)
    requires a == 0 || a == 1
    ensures (a + n) * tau == (if a == 1 then tau else 0) + n * tau
  {
  }

  lemma {:induction false} InOrderEnd(start: int, calls: seq<Call>)
    requires InOrder(start, calls) && calls != []
    ensures start <= calls[|calls| - 1].now && forall call | call in calls :: call.now <= calls[|calls| - 1].now
    decreases |calls|
  {
    if |calls| > 1 {
      InOrderEnd(calls[0].now, calls[1..]);
      assert calls == [calls[0]] + calls[1..];
    }
  }

  /** The window bound of the whole limiter: from any state a run can be in, a window of length T
      admits a key at most Burst + T/tokenInterval times, and a burst more for every time its spent
      credit was lost within the window. */
  lemma WindowBoundPerKey(c: Config, ss: seq<Slot>, calls: seq<Call>, k: Key)
    requires Valid(c) && calls != [] && InOrder(calls[0].now, calls) && Inv(c, ss, calls[0].now)
    ensures var length := calls[|calls| - 1].now - calls[0].now;
            Count(Decisions(c, ss, calls, k))
            <= c.policy.burst + length / (c.policy.interval / c.policy.burst) + Losses(c, ss, calls, k) * c.policy.burst
  {
    var t, end, held := calls[0].now, calls[|calls| - 1].now, Lookup(ss, k);
    var m: Buckets := if held.Some? then map[k := held.value] else map[];
    assert Get(m, k) == held;
    LookupSound(c, ss, t, k);
    CreditGrows(c, held, t, t);
    DriftIsBounded(c, ss, m, t, calls, k, 0, 0);
    InOrderEnd(t, calls);
    RefWindow(c, m, t, calls, k, end);
  }

  lemma RefWindow(c: Config, m: Buckets, t: int, calls: seq<Call>, k: Key, end: int)
    requires Valid(c) && Sound(c, Get(m, k), t) && InOrder(t, calls) && t <= end
    requires forall call | call in calls :: call.now <= end
    ensures Count(RefDecisions(c, m, calls, k)) <= c.policy.burst + (end - t) / Bucket.TokenInterval(c.policy)
  {
    Bucket.FullIsWithinInterval(c.policy);
    RefAdmissionsArePaid(c, m, t, calls, k, end);
    CreditGrows(c, Get(m, k), t, t);
    Bucket.DivideBound(Count(RefDecisions(c, m, calls, k)), c.policy.burst, Bucket.TokenInterval(c.policy), end - t);
  }

  /** Calls at one instant on a bucket just used are all admitted while its credit lasts. */
  lemma {:induction false} SpendNow(c: Config, ss: seq<Slot>, t: int, k: Key, n: nat, later: seq<Call>)
    returns (after: seq<Slot>)
    requires Valid(c) && Inv(c, ss, t) && Lookup(ss, k).Some? && Lookup(ss, k).value.updatedAt == t
    requires n * Bucket.TokenInterval(c.policy) <= Credit(c, Lookup(ss, k), t)
    ensures Inv(c, after, t) && Lookup(after, k).Some? && Lookup(after, k).value.updatedAt == t
    ensures Credit(c, Lookup(after, k), t) == Credit(c, Lookup(ss, k), t) - n * Bucket.TokenInterval(c.policy)
    ensures Count(Decisions(c, ss, Repeat(Call(k, t), n) + later, k))
            == n + Count(Decisions(c, after, later, k))
    decreases n
  {
    var calls := Repeat(Call(k, t), n) + later;
    var tau := Bucket.TokenInterval(c.policy);
    if n == 0 {
      assert calls == later;
      after := ss;
    } else {
      assert n * tau == (n - 1) * tau + tau;
      MulMonotone(0, n - 1, tau);
      var next := OneAdmitted(c, ss, t, Call(k, t));
      assert calls[0] == Call(k, t) && calls[1..] == Repeat(Call(k, t), n - 1) + later;
      FirstCall(c, ss, calls, k);
      after := SpendNow(c, next, t, k, n - 1, later);
    }
  }

  lemma OneAdmitted(c: Config, ss: seq<Slot>, t: int, call: Call) returns (next: seq<Slot>)
    requires Valid(c) && Inv(c, ss, t)
    requires Lookup(ss, call.key).Some? && Lookup(ss, call.key).value.updatedAt == t == call.now
    requires Bucket.TokenInterval(c.policy) <= Credit(c, Lookup(ss, call.key), t)
    ensures Serve(c, ss, call.key, t).0 == next && Serve(c, ss, call.key, t).1.allowed
    ensures Inv(c, next, t) && Lookup(next, call.key).Some? && Lookup(next, call.key).value.updatedAt == t
    ensures Credit(c, Lookup(next, call.key), t)
            == Credit(c, Lookup(ss, call.key), t) - Bucket.TokenInterval(c.policy)
  {
    next := Serve(c, ss, call.key, t).0;
    ExpiryKeepsYoung(c, ss, t, t, call.key);
    ServeCredit(c, ss, t, call, call.key);
    TakeOfCredit(c, Credit(c, Lookup(ss, call.key), t), t);
    ServeLookup(c, ss, call.key, t, call.key);
  }

  /** The first call on a bucket that is absent or about to expire finds it full. */
  lemma FirstOfBurst(c: Config, ss: seq<Slot>, t: int, call: Call) returns (next: seq<Slot>)
    requires Valid(c) && Inv(c, ss, t) && t <= call.now
    requires Lookup(Expire(c, ss, call.now), call.key).None?
    ensures Serve(c, ss, call.key, call.now).0 == next && Serve(c, ss, call.key, call.now).1.allowed
    ensures Inv(c, next, call.now)
    ensures Lookup(next, call.key)
            == Some(Bucket.State(Bucket.Full(c.policy) - Bucket.TokenInterval(c.policy), call.now))
  {
    Bucket.FullIsWithinInterval(c.policy);
    next := Serve(c, ss, call.key, call.now).0;
    ServeLookup(c, ss, call.key, call.now, call.key);
    ExpireCuts(c, ss, call.now, call.key);
    EvictCuts(c, Expire(c, ss, call.now), call.key);
    ServeKeepsInv(c, ss, t, call.key, call.now);
  }

  lemma FullBurst(c: Config, ss: seq<Slot>, t: int, call: Call, later: seq<Call>) returns (after: seq<Slot>)
    requires Valid(c) && Inv(c, ss, t) && t <= call.now
    requires Lookup(Expire(c, ss, call.now), call.key).None?
    ensures Inv(c, after, call.now)
    ensures Lookup(after, call.key).Some? && Lookup(after, call.key).value.updatedAt == call.now
    ensures Count(Decisions(c, ss, Repeat(call, c.policy.burst) + later, call.key))
            == c.policy.burst + Count(Decisions(c, after, later, call.key))
  {
    var n, tau := c.policy.burst, Bucket.TokenInterval(c.policy);
    var calls := Repeat(call, n) + later;
    var next := FirstOfBurst(c, ss, t, call);
    assert (n - 1) * tau == n * tau - tau;
    assert calls[0] == call && calls[1..] == Repeat(call, n - 1) + later;
    FirstCall(c, ss, calls, call.key);
    after := SpendNow(c, next, call.now, call.key, n - 1, later);
  }

  lemma TwoBurstsInOrder(c: Config, n: nat, m: nat)
    requires c.ttl >= 0
    ensures InOrder(0, Repeat(Call(0, 0), n) + Repeat(Call(0, c.ttl), m))
    decreases n + m
  {
    var calls := Repeat(Call(0, 0), n) + Repeat(Call(0, c.ttl), m);
    if n > 0 {
      TwoBurstsInOrder(c, n - 1, m);
      assert calls[1..] == Repeat(Call(0, 0), n - 1) + Repeat(Call(0, c.ttl), m);
    } else {
      SameInstantInOrder(c.ttl, m);
      assert calls == Repeat(Call(0, c.ttl), m);
    }
  }

  lemma SameInstantInOrder(t: int, m: nat)
    ensures InOrder(t, Repeat(Call(0, t), m))
  {
    if m > 0 {
      SameInstantInOrder(t, m - 1);
      assert Repeat(Call(0, t), m)[1..] == Repeat(Call(0, t), m - 1);
    }
  }

  /** One caller, two full bursts: the second comes as soon as the bucket has expired, before it
      could have refilled. */
  lemma ImpatientTtlIsSeen(c: Config) returns (calls: seq<Call>)
    requires Valid(c) && !PatientTtl(c)
    ensures Roomy(c, 0, calls)
    ensures !Faithful(c, calls, 0)
  {
    var n, full := c.policy.burst, Bucket.Full(c.policy);
    var second := Repeat(Call(0, c.ttl), n);
    calls := Repeat(Call(0, 0), n) + second;
    TwoBurstsInOrder(c, n, n);
    FewKeysNoEviction(c, [], calls, {0});
    Bucket.FullIsWithinInterval(c.policy);
    var after := FullBurst(c, [], 0, Call(0, 0), second);
    ExpiryIsExact(c, after, c.ttl);
    LookupMember(after, 0);
    LookupMember(Expire(c, after, c.ttl), 0);
    ExpireCuts(c, after, c.ttl, 0);
    assert second + [] == second;
    var _ := FullBurst(c, after, 0, Call(0, c.ttl), []);
    RefAdmissionsArePaid(c, map[], 0, calls, 0, c.ttl);
    TwiceIsTooMuch(n, Bucket.TokenInterval(c.policy), c.ttl, Count(RefDecisions(c, map[], calls, 0)));
  }

  lemma TwiceIsTooMuch(n: int, tau: int, ttl: int, admitted: int)
    requires tau > 0 && admitted * tau <= n * tau + ttl && ttl < n * tau
    ensures admitted < n + n
  {
    assert (n + n) * tau == n * tau + n * tau;
    if admitted >= n + n { MulMonotone(n + n, admitted, tau); }
  }

  /** Idle expiry is unobservable, for every caller and every sequence of requests that evicts
      nobody, exactly when the TTL is disabled or at least the time a bucket takes to refill. */
  lemma IdleExpiryIsUnseenIff(c: Config)
    requires Valid(c)
    ensures PatientTtl(c) <==>
            forall start, calls, k | Roomy(c, start, calls) :: Faithful(c, calls, k)
  {
    if PatientTtl(c) {
      forall start, calls, k | Roomy(c, start, calls)
        ensures Faithful(c, calls, k)
      {
        IdleExpiryIsUnseen(c, start, calls, k);
      }
    } else {
      var calls := ImpatientTtlIsSeen(c);
      assert Roomy(c, 0, calls) && !Faithful(c, calls, 0);
    }
  }
}
