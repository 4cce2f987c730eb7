/** The rate of the whole limiter, in terms of its policy alone. */
module LimiterRate {
  import opened Common
  import opened Limiter
  import opened LimiterTheorems
  import opened AnyClock
  import Bucket
  import Forgetting

  /** A key that is new to the limiter and never dropped is served by one token bucket of its own,
      whatever the other callers do and in whatever order the times arrive. */
  lemma KeyIsBucket(c: Config, ss: seq<Slot>, calls: seq<Call>, k: Key)
    requires Valid(c) && DistinctKeys(ss) && Lookup(ss, k) == None && Drops(c, ss, calls, k) == 0
    requires Times(calls, k) != []
    ensures Decisions(c, ss, calls, k)
            == Bucket.Decisions(c.policy, Bucket.Fresh(c.policy, Times(calls, k)[0]), Times(calls, k))
  {
    SameBucketSameDecisions(c, ss, map[], calls, k);
    RefIsBucket(c, map[], calls, k);
  }

  lemma {:induction false} AllAdmitted(p: Bucket.Policy, b: Bucket.State, ts: seq<int>)
    requires Bucket.Valid(p)
    ensures Bucket.Admitted(p, b, ts) <= |ts|
    ensures Bucket.Admitted(p, b, ts) == |ts| ==> forall i | 0 <= i < |ts| :: Bucket.Decisions(p, b, ts)[i].allowed
    decreases |ts|
  {
    if ts != [] { AllAdmitted(p, Bucket.Take(p, b, ts[0]).0, ts[1..]); }
  }

  /** A caller that spent its burst at one instant is admitted again exactly when a burst-th of the
      interval has passed, and until then is told to come back in the missing time, rounded up to
      whole seconds and at least one. */
  lemma AdmittedAgainIff(c: Config, ss: seq<Slot>, calls: seq<Call>, k: Key, t0: int, t: int)
    requires Valid(c) && DistinctKeys(ss) && Lookup(ss, k) == None && Drops(c, ss, calls, k) == 0
    requires Times(calls, k) == Repeat(t0, c.policy.burst) + [t]
    ensures var ds := Decisions(c, ss, calls, k);
            var missing := c.policy.interval / c.policy.burst - Passed(t0, t);
            && |ds| == c.policy.burst + 1 && (forall i | 0 <= i < c.policy.burst :: ds[i].allowed)
            && (ds[c.policy.burst].allowed <==> t - t0 >= c.policy.interval / c.policy.burst)
            && (!ds[c.policy.burst].allowed ==> Bucket.WholeSeconds(ds[c.policy.burst].retryAfter, missing))
  {
    var p, first := c.policy, Repeat(t0, c.policy.burst);
    Bucket.ValidIff(p);
    KeyIsBucket(c, ss, calls, k);
    Forgetting.DecisionsThenOne(p, Bucket.Fresh(p, t0), first, t);
    Bucket.FreshServesBurst(p, t0);
    AllAdmitted(p, Bucket.Fresh(p, t0), first);
    Bucket.NextCallIff(p, t0, t);
  }

  // ---- What drops a bucket -------------------------------------------------------------------------------

  lemma {:induction false} DistinctMeans(ss: seq<Slot>)
    requires DistinctKeys(ss)
    ensures Apart(ss)
  {
    if ss != [] {
      DistinctMeans(Front(ss));
      LookupMember(Front(ss), Last(ss).key);
      forall i, j | 0 <= i < j < |ss| ensures ss[i].key != ss[j].key {
        assert ss[i] == Front(ss)[i];
        if j == |ss| - 1 { assert Front(ss)[i] in Front(ss); } else { assert ss[j] == Front(ss)[j]; }
      }
    }
  }

  lemma PrefixHolds(ss: seq<Slot>, n: nat, key: Key, i: nat)
    requires Apart(ss) && n <= |ss| && i < |ss| && ss[i].key == key
    ensures Lookup(ss[..n], key).Some? <==> i < n
  {
    if i < n { HeldByIndex(ss[..n], key, i); } else { UnheldByIndex(ss[..n], key); }
  }

  /** A call drops the bucket at position `i` exactly when that does not survive expiry, or when the
      caller is new to the survivors and they leave room for no more than `i` of them. */
  lemma DroppedIff(c: Config, ss: seq<Slot>, call: Call, i: nat)
    requires Valid(c) && DistinctKeys(ss) && i < |ss|
    ensures Dropped(c, ss, call, ss[i].key)
            <==> || !Survives(c, ss, call.now, i)
                 || (i >= c.capacity - 1
                     && forall j | 0 <= j < |ss| && ss[j].key == call.key :: !Survives(c, ss, call.now, j))
  {
    var young := Expire(c, ss, call.now);
    var n, k := |young|, ss[i].key;
    DistinctMeans(ss);
    ExpireShortens(c, ss, call.now);
    forall j | 0 <= j < |ss| ensures Survives(c, ss, call.now, j) <==> j < n { ExpireByIndex(c, ss, call.now, j); }
    PrefixHolds(ss, |ss|, k, i);
    PrefixHolds(ss, n, k, i);
    assert ss[..|ss|] == ss && ss[..n] == young;
    if j :| 0 <= j < |ss| && ss[j].key == call.key {
      PrefixHolds(ss, n, call.key, j);
    } else {
      UnheldByIndex(young, call.key);
    }
    EvictByIndex(c, young);
    if n >= c.capacity {
      PrefixHolds(ss, c.capacity - 1, k, i);
      assert young[..c.capacity - 1] == ss[..c.capacity - 1];
    }
  }
}
