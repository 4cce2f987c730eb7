/** The bounded limiter against the reference when calls arrive with any times at all, as they can
    because the clock is read before the lock is taken. */
module AnyClock {
  import opened Common
  import opened Limiter
  import opened LimiterTheorems
  import opened LimiterComparison
  import Bucket

  /** The call drops the bucket of `k`. */
  predicate Dropped(c: Config, ss: seq<Slot>, call: Call, k: Key)
    requires Valid(c)
  {
    Lookup(ss, k).Some? && Lookup(Kept(c, ss, call.key, call.now), k).None?
  }

  function Drops(c: Config, ss: seq<Slot>, calls: seq<Call>, k: Key): nat
    requires Valid(c)
    decreases |calls|
  {
    if calls == [] then 0
    else Admit(Dropped(c, ss, calls[0], k)) + Drops(c, Serve(c, ss, calls[0].key, calls[0].now).0, calls[1..], k)
  }

  /** The credit as it is stored; an absent bucket is a full one. */
  function Stored(c: Config, held: Option<Bucket.State>): int
    requires Valid(c)
  {
    if held.Some? then held.value.credit else Bucket.Full(c.policy)
  }

  /** Both limiters last charged the key in the same call, as long as both hold its bucket. */
  ghost predicate InStep(c: Config, mine: Option<Bucket.State>, theirs: Option<Bucket.State>, ahead: int, lost: nat)
    requires Valid(c)
  {
    && (mine.Some? ==> theirs.Some? && mine.value.updatedAt == theirs.value.updatedAt)
    && Balanced(c, ahead, lost, Stored(c, mine), Stored(c, theirs))
  }

  /** How far the reference's clock moves forward with this call. */
  function Forward(held: Option<Bucket.State>, now: int): nat {
    if held.Some? && now > held.value.updatedAt then now - held.value.updatedAt else 0
  }

  lemma ChargeFrom(c: Config, held: Option<Bucket.State>, now: int, elapsed: nat)
    requires Valid(c) && 0 <= Stored(c, held) <= Bucket.Full(c.policy)
    requires held.Some? ==> elapsed == Forward(held, now)
    ensures var tau := Bucket.TokenInterval(c.policy);
            var credit := Bucket.Min(Bucket.Full(c.policy), Stored(c, held) + elapsed);
            var (spent, d) := Bucket.Take(c.policy, Start(c, held, now), now);
            && d == Bucket.Take(c.policy, Bucket.State(credit, now), now).1
            && (d.allowed <==> credit >= tau)
            && spent == Bucket.State(if credit >= tau then credit - tau else credit, now)
  {
  }

  /** A call on the key itself charges both. */
  lemma ChargeKeepsStep(c: Config, mine: Option<Bucket.State>, theirs: Option<Bucket.State>, now: int,
                        ahead: int, lost: nat)
    returns (ahead': int)
    requires Valid(c) && InStep(c, mine, theirs, ahead, lost)
    ensures var (x, d) := Bucket.Take(c.policy, Start(c, mine, now), now);
            var (y, r) := Bucket.Take(c.policy, Start(c, theirs, now), now);
            && ahead' == ahead + Admit(d.allowed) - Admit(r.allowed)
            && InStep(c, Some(x), Some(y), ahead', lost)
  {
    var full, elapsed := Bucket.Full(c.policy), Forward(theirs, now);
    BalancePasses(c, ahead, lost, Stored(c, mine), Stored(c, theirs), elapsed);
    ChargeFrom(c, mine, now, elapsed);
    ChargeFrom(c, theirs, now, elapsed);
    ahead' := BalanceSpends(c, ahead, lost, Bucket.Min(full, Stored(c, mine) + elapsed),
                            Bucket.Min(full, Stored(c, theirs) + elapsed));
  }

  lemma DropKeepsStep(c: Config, mine: Option<Bucket.State>, kept: Option<Bucket.State>, theirs: Option<Bucket.State>,
                      ahead: int, lost: nat)
    returns (lost': nat)
    requires Valid(c) && InStep(c, mine, theirs, ahead, lost) && (kept == mine || kept.None?)
    ensures lost' == lost + Admit(mine.Some? && kept.None?) && InStep(c, kept, theirs, ahead, lost')
  {
    lost' := lost;
    if mine.Some? && kept.None? {
      BalanceLoses(c, ahead, lost, Stored(c, mine), Stored(c, theirs));
      lost' := lost + 1;
    }
  }

  lemma CallKeepsStep(c: Config, ss: seq<Slot>, m: Buckets, call: Call, k: Key, ahead: int, lost: nat)
    returns (ahead': int, lost': nat)
    requires Valid(c) && DistinctKeys(ss) && InStep(c, Lookup(ss, k), Get(m, k), ahead, lost)
    ensures lost' == lost + Admit(Dropped(c, ss, call, k)) && ahead' == ahead + Gained(c, ss, m, call, k)
    ensures var after, refAfter := Serve(c, ss, call.key, call.now).0, RefServe(c, m, call.key, call.now).0;
            DistinctKeys(after) && InStep(c, Lookup(after, k), Get(refAfter, k), ahead', lost')
  {
    ServeLookup(c, ss, call.key, call.now, k);
    var kept := Lookup(Kept(c, ss, call.key, call.now), k);
    lost' := DropKeepsStep(c, Lookup(ss, k), kept, Get(m, k), ahead, lost);
    ahead' := ahead;
    if call.key == k { ahead' := ChargeKeepsStep(c, kept, Get(m, k), call.now, ahead, lost'); }
  }

  lemma {:induction false} DriftOnAnyClock(c: Config, ss: seq<Slot>, m: Buckets, calls: seq<Call>, k: Key,
                                           ahead: int, lost: nat)
    requires Valid(c) && DistinctKeys(ss) && InStep(c, Lookup(ss, k), Get(m, k), ahead, lost)
    ensures var mine, theirs := Count(Decisions(c, ss, calls, k)), Count(RefDecisions(c, m, calls, k));
            theirs <= ahead + mine <= theirs + (lost + Drops(c, ss, calls, k)) * c.policy.burst
    decreases |calls|
  {
    if calls != [] {
      var call := calls[0];
      var after, refAfter := Serve(c, ss, call.key, call.now).0, RefServe(c, m, call.key, call.now).0;
      var ahead', lost' := CallKeepsStep(c, ss, m, call, k, ahead, lost);
      FirstCall(c, ss, calls, k);
      RefFirstCall(c, m, calls, k);
      DriftOnAnyClock(c, after, refAfter, calls[1..], k, ahead', lost');
    }
  }

  /** For every sequence of requests whatsoever - no order of time is assumed, and every prefix is
      such a sequence - each key is admitted at least as often as by a limiter that never forgets,
      and at most one burst more for every time its bucket was dropped. */
  lemma NeverBehindReference(c: Config, calls: seq<Call>, k: Key)
    requires Valid(c)
    ensures var mine, theirs := Count(Decisions(c, [], calls, k)), Count(RefDecisions(c, map[], calls, k));
            theirs <= mine <= theirs + Drops(c, [], calls, k) * c.policy.burst
  {
    Bucket.FullIsWithinInterval(c.policy);
    DriftOnAnyClock(c, [], map[], calls, k, 0, 0);
  }

  lemma {:induction false} SameBucketSameDecisions(c: Config, ss: seq<Slot>, m: Buckets, calls: seq<Call>, k: Key)
    requires Valid(c) && DistinctKeys(ss) && Lookup(ss, k) == Get(m, k) && Drops(c, ss, calls, k) == 0
    ensures Decisions(c, ss, calls, k) == RefDecisions(c, m, calls, k)
    decreases |calls|
  {
    if calls != [] {
      var call := calls[0];
      ServeLookup(c, ss, call.key, call.now, k);
      var after, refAfter := Serve(c, ss, call.key, call.now).0, RefServe(c, m, call.key, call.now).0;
      SameBucketSameDecisions(c, after, refAfter, calls[1..], k);
    }
  }

  /** A key whose bucket is never dropped gets the decisions of the reference, on any clock. */
  lemma NeverDroppedNeverSeen(c: Config, calls: seq<Call>, k: Key)
    requires Valid(c) && Drops(c, [], calls, k) == 0
    ensures Decisions(c, [], calls, k) == RefDecisions(c, map[], calls, k)
  {
    SameBucketSameDecisions(c, [], map[], calls, k);
  }

  // ---- The reference, key by key ----------------------------------------------------------------------

  /** The times at which a key called. */
  function Times(calls: seq<Call>, k: Key): seq<int> {
    if calls == [] then []
    else (if calls[0].key == k then [calls[0].now] else []) + Times(calls[1..], k)
  }

  function StartFor(c: Config, held: Option<Bucket.State>, ts: seq<int>): Bucket.State
    requires Valid(c)
  {
    Start(c, held, if ts == [] then 0 else ts[0])
  }

  /** The reference gives every key a bucket of its own: its decisions are those of that bucket on the
      key's own calls. */
  lemma {:induction false} RefIsBucket(c: Config, m: Buckets, calls: seq<Call>, k: Key)
    requires Valid(c)
    ensures RefDecisions(c, m, calls, k)
            == Bucket.Decisions(c.policy, StartFor(c, Get(m, k), Times(calls, k)), Times(calls, k))
    decreases |calls|
  {
    if calls != [] {
      var call := calls[0];
      RefIsBucket(c, RefServe(c, m, call.key, call.now).0, calls[1..], k);
      var rest := Times(calls[1..], k);
      if call.key == k { assert ([call.now] + rest)[1..] == rest; } else { assert [] + rest == rest; }
    }
  }

  lemma {:induction false} CountIsAdmitted(p: Bucket.Policy, b: Bucket.State, ts: seq<int>)
    requires Bucket.Valid(p)
    ensures Count(Bucket.Decisions(p, b, ts)) == Bucket.Admitted(p, b, ts)
    decreases |ts|
  {
    if ts != [] {
      CountIsAdmitted(p, Bucket.Take(p, b, ts[0]).0, ts[1..]);
      var rest := Bucket.Decisions(p, Bucket.Take(p, b, ts[0]).0, ts[1..]);
      assert ([Bucket.Take(p, b, ts[0]).1] + rest)[1..] == rest;
    }
  }

  /** A burst, and what the clock paid for while it moved forward between the calls. */
  function Credited(c: Config, ts: seq<int>): int
    requires Valid(c) && ts != []
  {
    Bucket.FullIsWithinInterval(c.policy);
    c.policy.burst + Bucket.Forward(ts[0], ts[1..]) / (c.policy.interval / c.policy.burst)
  }

  /** The window bound of the whole limiter for any clock: from any state, a key is admitted at most a
      burst, plus what forward movement of the clock between its own calls pays for, plus a burst
      for every time its bucket is dropped. */
  lemma WindowOnAnyClock(c: Config, ss: seq<Slot>, calls: seq<Call>, k: Key)
    requires Valid(c) && DistinctKeys(ss) && Times(calls, k) != []
    requires Lookup(ss, k).Some? ==> Bucket.Ok(c.policy, Lookup(ss, k).value)
    ensures var ts := Times(calls, k);
            Count(Decisions(c, ss, calls, k))
            <= Credited(c, ts) + Drops(c, ss, calls, k) * c.policy.burst
  {
    var m := OnlyKey(c, ss, k);
    DriftOnAnyClock(c, ss, m, calls, k, 0, 0);
    RefWithinForward(c, m, calls, k);
  }

  /** A reference that holds the same bucket for the key. */
  lemma OnlyKey(c: Config, ss: seq<Slot>, k: Key) returns (m: Buckets)
    requires Valid(c) && (Lookup(ss, k).Some? ==> Bucket.Ok(c.policy, Lookup(ss, k).value))
    ensures Get(m, k) == Lookup(ss, k) && InStep(c, Lookup(ss, k), Get(m, k), 0, 0)
  {
    Bucket.FullIsWithinInterval(c.policy);
    var held := Lookup(ss, k);
    m := if held.Some? then map[k := held.value] else map[];
    assert Get(m, k) == held;
  }

  lemma RefWithinForward(c: Config, m: Buckets, calls: seq<Call>, k: Key)
    requires Valid(c) && Times(calls, k) != [] && (k in m ==> Bucket.Ok(c.policy, m[k]))
    ensures var ts := Times(calls, k);
            Count(RefDecisions(c, m, calls, k)) <= Credited(c, ts)
  {
    Bucket.FullIsWithinInterval(c.policy);
    RefIsBucket(c, m, calls, k);
    CountIsAdmitted(c.policy, StartFor(c, Get(m, k), Times(calls, k)), Times(calls, k));
    Bucket.AdmittedWithinForward(c.policy, StartFor(c, Get(m, k), Times(calls, k)), Times(calls, k));
  }

  // ---- The representation on any clock -------------------------------------------------------------------

  /** Every call keeps distinct keys, at most capacity of them, each with at most a burst of credit. */
  lemma ServeKeepsShape(c: Config, ss: seq<Slot>, key: Key, now: int)
    requires Valid(c) && DistinctKeys(ss) && |ss| <= c.capacity
    requires forall s | s in ss :: Bucket.Ok(c.policy, s.bucket)
    ensures var after := Serve(c, ss, key, now).0;
            && DistinctKeys(after) && |after| <= c.capacity
            && (forall s | s in after :: Bucket.Ok(c.policy, s.bucket))
            && after[0].key == key && after[0].bucket.updatedAt == now
  {
    ServeLookup(c, ss, key, now, key);
    ChargedKeepsShape(c, ss, key, now);
    Bucket.TakeKeepsOk(c.policy, Charged(c, ss, key, now).0, now);
  }

  lemma ChargedKeepsShape(c: Config, ss: seq<Slot>, key: Key, now: int)
    requires Valid(c) && DistinctKeys(ss) && |ss| <= c.capacity
    requires forall s | s in ss :: Bucket.Ok(c.policy, s.bucket)
    ensures var (bucket, rest) := Charged(c, ss, key, now);
            && Bucket.Ok(c.policy, bucket) && |rest| < c.capacity
            && forall s | s in rest :: Bucket.Ok(c.policy, s.bucket)
  {
    var young := Expire(c, ss, now);
    ExpireCuts(c, ss, now, key);
    EvictCuts(c, young, key);
    LookupMember(young, key);
    RemoveIsPart(young, key);
    Bucket.FullIsWithinInterval(c.policy);
  }
}
