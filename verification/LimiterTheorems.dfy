/** The bounded limiter compared with the simple one it stands for: an unbounded map that never
    forgets a bucket. */
module LimiterTheorems {
  import opened Common
  import opened Limiter
  import Bucket

  datatype Call = Call(key: Key, now: int)

  /** Times never go back from one call to the next. */
  predicate InOrder(start: int, calls: seq<Call>)
    decreases |calls|
  {
    calls == [] || (start <= calls[0].now && InOrder(calls[0].now, calls[1..]))
  }

  // ---- Runs of the bounded limiter -----------------------------------------------------------------

  /** The decisions given to one key. */
  function Decisions(c: Config, ss: seq<Slot>, calls: seq<Call>, k: Key): seq<Bucket.Decision>
    requires Valid(c)
    decreases |calls|
  {
    if calls == [] then []
    else
      var (next, d) := Serve(c, ss, calls[0].key, calls[0].now);
      (if calls[0].key == k then [d] else []) + Decisions(c, next, calls[1..], k)
  }

  /** The slots that survive expiry and eviction, before the call is charged. */
  function Kept(c: Config, ss: seq<Slot>, key: Key, now: int): seq<Slot>
    requires Valid(c)
  {
    var young := Expire(c, ss, now);
    if Lookup(young, key).Some? then young else Evict(c, young)
  }

  /** A call makes the limiter forget credit that `k` had spent. */
  predicate Lost(c: Config, ss: seq<Slot>, call: Call, k: Key)
    requires Valid(c)
  {
    && Lookup(ss, k).Some? && Lookup(Kept(c, ss, call.key, call.now), k).None?
    && Bucket.Refill(c.policy, Lookup(ss, k).value, call.now) < Bucket.Full(c.policy)
  }

  function Losses(c: Config, ss: seq<Slot>, calls: seq<Call>, k: Key): nat
    requires Valid(c)
    decreases |calls|
  {
    if calls == [] then 0
    else
      (if Lost(c, ss, calls[0], k) then 1 else 0)
      + Losses(c, Serve(c, ss, calls[0].key, calls[0].now).0, calls[1..], k)
  }

  // ---- The reference: every key keeps its bucket for ever --------------------------------------------

  type Buckets = map<Key, Bucket.State>

  function Get(m: Buckets, k: Key): Option<Bucket.State> { if k in m then Some(m[k]) else None }

  /** A key without a bucket starts full. */
  function Start(c: Config, held: Option<Bucket.State>, now: int): Bucket.State
    requires Valid(c)
  {
    match held
    case Some(bucket) => bucket
    case None => Bucket.Fresh(c.policy, now)
  }

  function RefServe(c: Config, m: Buckets, key: Key, now: int): (Buckets, Bucket.Decision)
    requires Valid(c)
  {
    var (spent, d) := Bucket.Take(c.policy, Start(c, Get(m, key), now), now);
    (m[key := spent], d)
  }

  function RefDecisions(c: Config, m: Buckets, calls: seq<Call>, k: Key): seq<Bucket.Decision>
    requires Valid(c)
    decreases |calls|
  {
    if calls == [] then []
    else
      var (next, d) := RefServe(c, m, calls[0].key, calls[0].now);
      (if calls[0].key == k then [d] else []) + RefDecisions(c, next, calls[1..], k)
  }

  function Count(ds: seq<Bucket.Decision>): nat {
    if ds == [] then 0 else (if ds[0].allowed then 1 else 0) + Count(ds[1..])
  }

  // ---- The representation: distinct keys, in order of last use -----------------------------------------

  predicate DistinctKeys(ss: seq<Slot>) {
    ss == [] || (Lookup(Front(ss), Last(ss).key).None? && DistinctKeys(Front(ss)))
  }

  /** Nobody in front was used before the one at the back. */
  predicate ByLastUse(ss: seq<Slot>) {
    ss == [] || ((forall s | s in Front(ss) :: Last(ss).bucket.updatedAt <= s.bucket.updatedAt) && ByLastUse(Front(ss)))
  }

  ghost predicate Inv(c: Config, ss: seq<Slot>, now: int)
    requires Valid(c)
  {
    && DistinctKeys(ss) && |ss| <= c.capacity && ByLastUse(ss)
    && forall s | s in ss :: s.bucket.updatedAt <= now && Bucket.Ok(c.policy, s.bucket)
  }

  lemma {:induction false} LookupMember(ss: seq<Slot>, k: Key)
    ensures Lookup(ss, k).Some? ==> Slot(k, Lookup(ss, k).value) in ss
    ensures Lookup(ss, k).None? ==> forall s | s in ss :: s.key != k
  {
    if ss != [] && Last(ss).key != k {
      LookupMember(Front(ss), k);
      assert ss == Front(ss) + [Last(ss)];
    }
  }

  lemma {:induction false} LookupFront(s: Slot, ss: seq<Slot>, k: Key)
    ensures Lookup([s] + ss, k) == if Lookup(ss, k).Some? then Lookup(ss, k)
                                   else if s.key == k then Some(s.bucket) else None
  {
    if ss == [] {
      assert Front([s]) == [];
    } else {
      assert Front([s] + ss) == [s] + Front(ss);
      LookupFront(s, Front(ss), k);
    }
  }

  lemma {:induction false} DistinctFront(s: Slot, ss: seq<Slot>)
    requires DistinctKeys(ss) && Lookup(ss, s.key).None?
    ensures DistinctKeys([s] + ss)
  {
    if ss == [] {
      assert Front([s]) == [];
    } else {
      assert Front([s] + ss) == [s] + Front(ss);
      DistinctFront(s, Front(ss));
      LookupFront(s, Front(ss), Last(ss).key);
    }
  }

  /** Expiry and eviction cut the list short at the back. */
  lemma {:induction false} ExpireCuts(c: Config, ss: seq<Slot>, now: int, k: Key)
    requires DistinctKeys(ss)
    ensures Expire(c, ss, now) <= ss && DistinctKeys(Expire(c, ss, now))
    ensures Lookup(Expire(c, ss, now), k) == Lookup(ss, k) || Lookup(Expire(c, ss, now), k).None?
  {
    if ss != [] && Stale(c, Last(ss), now) { ExpireCuts(c, Front(ss), now, k); }
  }

  lemma {:induction false} EvictCuts(c: Config, ss: seq<Slot>, k: Key)
    requires c.capacity >= 1 && DistinctKeys(ss)
    ensures Evict(c, ss) <= ss && DistinctKeys(Evict(c, ss)) && |Evict(c, ss)| < c.capacity
    ensures Lookup(Evict(c, ss), k) == Lookup(ss, k) || Lookup(Evict(c, ss), k).None?
  {
    if |ss| >= c.capacity { EvictCuts(c, Front(ss), k); }
  }

  lemma {:induction false} RemoveCuts(ss: seq<Slot>, key: Key, k: Key)
    requires DistinctKeys(ss)
    ensures DistinctKeys(Remove(ss, key)) && Lookup(Remove(ss, key), k) == if k == key then None else Lookup(ss, k)
  {
    if ss != [] && Last(ss).key != key {
      var front := Front(ss);
      RemoveCuts(front, key, k);
      RemoveCuts(front, key, Last(ss).key);
      assert Front(Remove(front, key) + [Last(ss)]) == Remove(front, key);
    }
  }

  lemma {:induction false} RemoveIsPart(ss: seq<Slot>, key: Key)
    ensures forall s | s in Remove(ss, key) :: s in ss
    ensures |Remove(ss, key)| <= |ss| && (Lookup(ss, key).Some? ==> |Remove(ss, key)| < |ss|)
  {
    if ss != [] && Last(ss).key != key {
      RemoveIsPart(Front(ss), key);
      assert ss == Front(ss) + [Last(ss)];
    }
  }

  lemma {:induction false} RemoveKeepsOrder(ss: seq<Slot>, key: Key)
    requires ByLastUse(ss)
    ensures ByLastUse(Remove(ss, key))
  {
    if ss != [] && Last(ss).key != key {
      var kept := Remove(Front(ss), key);
      RemoveKeepsOrder(Front(ss), key);
      RemoveIsPart(Front(ss), key);
      BackKeepsOrder(kept, Last(ss));
    }
  }

  lemma BackKeepsOrder(ss: seq<Slot>, last: Slot)
    requires ByLastUse(ss) && forall s | s in ss :: last.bucket.updatedAt <= s.bucket.updatedAt
    ensures ByLastUse(ss + [last])
  {
    assert Front(ss + [last]) == ss;
  }

  lemma {:induction false} PrefixKeepsOrder(part: seq<Slot>, ss: seq<Slot>)
    requires part <= ss && ByLastUse(ss)
    ensures ByLastUse(part) && forall s | s in part :: s in ss
  {
    if part != ss {
      assert part <= Front(ss);
      PrefixKeepsOrder(part, Front(ss));
    }
  }

  lemma {:induction false} FrontKeepsOrder(s: Slot, ss: seq<Slot>)
    requires ByLastUse(ss) && forall x | x in ss :: x.bucket.updatedAt <= s.bucket.updatedAt
    ensures ByLastUse([s] + ss)
  {
    if ss == [] {
      assert Front([s]) == [];
    } else {
      assert Front([s] + ss) == [s] + Front(ss);
      FrontKeepsOrder(s, Front(ss));
    }
  }

  /** What a call leaves of every key's bucket. */
  lemma ServeLookup(c: Config, ss: seq<Slot>, key: Key, now: int, k: Key)
    requires Valid(c) && DistinctKeys(ss)
    ensures var kept := Lookup(Kept(c, ss, key, now), k);
            var (after, d) := Serve(c, ss, key, now);
            && DistinctKeys(after)
            && (kept == Lookup(ss, k) || kept.None?)
            && (k != key ==> Lookup(after, k) == kept)
            && (k == key ==> (Lookup(after, k), d) ==
                               var (spent, d') := Bucket.Take(c.policy, Start(c, kept, now), now);
                               (Some(spent), d'))
  {
    var young := Expire(c, ss, now);
    ExpireCuts(c, ss, now, k);
    EvictCuts(c, young, k);
    EvictCuts(c, young, key);
    RemoveCuts(young, key, k);
    RemoveCuts(young, key, key);
    var (bucket, rest) := Charged(c, ss, key, now);
    var slot := Slot(key, Bucket.Take(c.policy, bucket, now).0);
    LookupFront(slot, rest, k);
    DistinctFront(slot, rest);
  }

  lemma ChargedKeepsOrder(c: Config, ss: seq<Slot>, now: int, key: Key)
    requires Valid(c) && Inv(c, ss, now)
    ensures var (bucket, rest) := Charged(c, ss, key, now);
            && ByLastUse(rest) && |rest| < c.capacity && (forall s | s in rest :: s in ss)
            && Bucket.Ok(c.policy, bucket)
  {
    var young := Expire(c, ss, now);
    ExpireCuts(c, ss, now, key);
    PrefixKeepsOrder(young, ss);
    EvictCuts(c, young, key);
    PrefixKeepsOrder(Evict(c, young), young);
    RemoveKeepsOrder(young, key);
    RemoveIsPart(young, key);
    LookupMember(young, key);
    Bucket.FullIsWithinInterval(c.policy);
  }

  /** Every call keeps the representation: distinct keys, at most `capacity` of them, the most
      recently used first, every credit within a burst. */
  lemma ServeKeepsInv(c: Config, ss: seq<Slot>, t: int, key: Key, now: int)
    requires Valid(c) && Inv(c, ss, t) && t <= now
    ensures Inv(c, Serve(c, ss, key, now).0, now)
  {
    ServeLookup(c, ss, key, now, key);
    ChargedKeepsOrder(c, ss, now, key);
    var (bucket, rest) := Charged(c, ss, key, now);
    Bucket.TakeKeepsOk(c.policy, bucket, now);
    FrontKeepsOrder(Slot(key, Bucket.Take(c.policy, bucket, now).0), rest);
  }

  /** The walk from the back removes exactly the entries that are idle for the TTL. */
  lemma {:induction false} ExpiryIsExact(c: Config, ss: seq<Slot>, now: int)
    requires DistinctKeys(ss) && ByLastUse(ss)
    ensures forall s | s in ss ::
              s in Expire(c, ss, now) <==> c.ttl <= 0 || now - s.bucket.updatedAt < c.ttl
  {
    if ss != [] {
      var front, last := Front(ss), Last(ss);
      assert ss == front + [last];
      if Stale(c, last, now) {
        ExpiryIsExact(c, front, now);
        ExpireCuts(c, front, now, last.key);
        LookupMember(Expire(c, front, now), last.key);
      }
    }
  }
}
