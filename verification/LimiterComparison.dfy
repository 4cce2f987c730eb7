/** How far the bounded limiter can drift from the reference, key by key: it never admits fewer
    requests, and every loss of spent credit is worth at most one burst. */
module LimiterComparison {
  import opened Common
  import opened Limiter
  import opened LimiterTheorems
  import Bucket

  function Admit(yes: bool): nat { if yes then 1 else 0 }

  // ---- Credit ---------------------------------------------------------------------------------------

  /** What a key could spend at `now`; a key without a bucket is worth a full one. */
  function Credit(c: Config, held: Option<Bucket.State>, now: int): int
    requires Valid(c)
  {
    match held
    case Some(bucket) => Bucket.Refill(c.policy, bucket, now)
    case None => Bucket.Full(c.policy)
  }

  ghost predicate Sound(c: Config, held: Option<Bucket.State>, now: int)
    requires Valid(c)
  {
    held.Some? ==> held.value.updatedAt <= now && Bucket.Ok(c.policy, held.value)
  }

  lemma CreditGrows(c: Config, held: Option<Bucket.State>, t: int, now: int)
    requires Valid(c) && Sound(c, held, t) && t <= now
    ensures Credit(c, held, now) == Bucket.Min(Bucket.Full(c.policy), Credit(c, held, t) + (now - t))
    ensures Sound(c, held, now) && 0 <= Credit(c, held, t) <= Bucket.Full(c.policy)
  {
    Bucket.FullIsWithinInterval(c.policy);
  }

  /** A call reads its bucket only through the credit. */
  lemma TakeSpends(c: Config, held: Option<Bucket.State>, now: int)
    requires Valid(c) && Sound(c, held, now)
    ensures var tau := Bucket.TokenInterval(c.policy);
            var credit := Credit(c, held, now);
            var (spent, d) := Bucket.Take(c.policy, Start(c, held, now), now);
            && (d.allowed <==> credit >= tau)
            && d == Bucket.Take(c.policy, Bucket.State(credit, now), now).1
            && Sound(c, Some(spent), now)
            && Credit(c, Some(spent), now) == if d.allowed then credit - tau else credit
  {
    Bucket.FullIsWithinInterval(c.policy);
    Bucket.TakeKeepsOk(c.policy, Start(c, held, now), now);
  }

  lemma LookupSound(c: Config, ss: seq<Slot>, t: int, k: Key)
    requires Valid(c) && Inv(c, ss, t)
    ensures Sound(c, Lookup(ss, k), t)
  {
    LookupMember(ss, k);
  }

  // ---- The potential -----------------------------------------------------------------------------------

  /** `ahead` requests more have been admitted than by the reference, and credit was lost `lost`
      times: credit and requests together never fall behind, and never get ahead by more than a
      burst per loss. */
  ghost predicate Balanced(c: Config, ahead: int, lost: nat, mine: int, theirs: int)
    requires Valid(c)
  {
    var tau, full := Bucket.TokenInterval(c.policy), Bucket.Full(c.policy);
    && 0 <= ahead <= lost * c.policy.burst
    && 0 <= mine <= full && 0 <= theirs <= full
    && theirs <= mine + ahead * tau <= theirs + lost * full
  }

  lemma AheadIsWorth(c: Config, ahead: int, lost: nat)
    requires Valid(c)
    ensures lost * Bucket.Full(c.policy) == lost * c.policy.burst * Bucket.TokenInterval(c.policy)
    ensures ahead <= lost * c.policy.burst ==> ahead * Bucket.TokenInterval(c.policy) <= lost * Bucket.Full(c.policy)
    ensures ahead >= 0 ==> ahead * Bucket.TokenInterval(c.policy) >= 0
  {
    var tau, burst := Bucket.TokenInterval(c.policy), c.policy.burst;
    assert lost * (burst * tau) == lost * burst * tau;
    if ahead <= lost * burst { MulMonotone(ahead, lost * burst, tau); }
    if ahead >= 0 { MulMonotone(0, ahead, tau); }
  }

  lemma BalancePasses(c: Config, ahead: int, lost: nat, mine: int, theirs: int, elapsed: nat)
    requires Valid(c) && Balanced(c, ahead, lost, mine, theirs)
    ensures var full := Bucket.Full(c.policy);
            Balanced(c, ahead, lost, Bucket.Min(full, mine + elapsed), Bucket.Min(full, theirs + elapsed))
  {
    AheadIsWorth(c, ahead, lost);
  }

  lemma BalanceLoses(c: Config, ahead: int, lost: nat, mine: int, theirs: int)
    requires Valid(c) && Balanced(c, ahead, lost, mine, theirs)
    ensures Balanced(c, ahead, lost + 1, Bucket.Full(c.policy), theirs)
  {
    AheadIsWorth(c, ahead, lost);
    assert (lost + 1) * Bucket.Full(c.policy) == lost * Bucket.Full(c.policy) + Bucket.Full(c.policy);
    assert (lost + 1) * c.policy.burst == lost * c.policy.burst + c.policy.burst;
  }

  lemma BalanceSpends(c: Config, ahead: int, lost: nat, mine: int, theirs: int) returns (ahead': int)
    requires Valid(c) && Balanced(c, ahead, lost, mine, theirs)
    ensures var tau := Bucket.TokenInterval(c.policy);
            && ahead' == ahead + Admit(mine >= tau) - Admit(theirs >= tau)
            && Balanced(c, ahead', lost, if mine >= tau then mine - tau else mine,
                        if theirs >= tau then theirs - tau else theirs)
  {
    var tau := Bucket.TokenInterval(c.policy);
    Bucket.FullIsWithinInterval(c.policy);
    AheadIsWorth(c, ahead, lost);
    assert (ahead + 1) * tau == ahead * tau + tau;
    assert (ahead - 1) * tau == ahead * tau - tau;
    if mine >= tau > theirs {
      var cap := lost * c.policy.burst;
      assert (cap + 1) * tau == cap * tau + tau;
      if ahead + 1 > cap { MulMonotone(cap + 1, ahead + 1, tau); }
    }
    ahead' := ahead + Admit(mine >= tau) - Admit(theirs >= tau);
  }

  // ---- One call -------------------------------------------------------------------------------------------

  /** What `k` can spend when `call` is served: time has passed, and its bucket may just be lost. */
  function Arrives(c: Config, ss: seq<Slot>, call: Call, k: Key): int
    requires Valid(c)
  {
    if Lost(c, ss, call, k) then Bucket.Full(c.policy) else Credit(c, Lookup(ss, k), call.now)
  }

  /** What a call does to the credit of `k`: time passes, the bucket may be lost, and it is charged
      if the call is its own. */
  lemma ServeCredit(c: Config, ss: seq<Slot>, t: int, call: Call, k: Key)
    requires Valid(c) && Inv(c, ss, t) && t <= call.now
    ensures var (after, d) := Serve(c, ss, call.key, call.now);
            var tau := Bucket.TokenInterval(c.policy);
            var before := Arrives(c, ss, call, k);
            && Inv(c, after, call.now)
            && (call.key == k ==> d == Bucket.Take(c.policy, Bucket.State(before, call.now), call.now).1)
            && Credit(c, Lookup(after, k), call.now) == if call.key == k && before >= tau then before - tau else before
  {
    ServeKeepsInv(c, ss, t, call.key, call.now);
    ServeLookup(c, ss, call.key, call.now, k);
    LookupSound(c, ss, t, k);
    CreditGrows(c, Lookup(ss, k), t, call.now);
    TakeSpends(c, Lookup(Kept(c, ss, call.key, call.now), k), call.now);
  }

  lemma RefServeCredit(c: Config, m: Buckets, t: int, call: Call, k: Key)
    requires Valid(c) && Sound(c, Get(m, k), t) && t <= call.now
    ensures var (after, d) := RefServe(c, m, call.key, call.now);
            var tau := Bucket.TokenInterval(c.policy);
            var before := Credit(c, Get(m, k), call.now);
            && Sound(c, Get(after, k), call.now)
            && (call.key == k ==> d == Bucket.Take(c.policy, Bucket.State(before, call.now), call.now).1)
            && Credit(c, Get(after, k), call.now) == if call.key == k && before >= tau then before - tau else before
  {
    CreditGrows(c, Get(m, k), t, call.now);
    TakeSpends(c, Get(m, k), call.now);
  }

  lemma TakeOfCredit(c: Config, credit: int, now: int)
    requires Valid(c)
    ensures Bucket.Take(c.policy, Bucket.State(credit, now), now).1.allowed
            <==> credit >= Bucket.TokenInterval(c.policy)
  {
  }

  lemma ArrivalKeepsBalance(c: Config, ss: seq<Slot>, m: Buckets, t: int, call: Call, k: Key, ahead: int, lost: nat)
    returns (lost': nat)
    requires Valid(c) && Inv(c, ss, t) && Sound(c, Get(m, k), t) && t <= call.now
    requires Balanced(c, ahead, lost, Credit(c, Lookup(ss, k), t), Credit(c, Get(m, k), t))
    ensures lost' == lost + Admit(Lost(c, ss, call, k))
    ensures Balanced(c, ahead, lost', Arrives(c, ss, call, k), Credit(c, Get(m, k), call.now))
  {
    LookupSound(c, ss, t, k);
    CreditGrows(c, Lookup(ss, k), t, call.now);
    CreditGrows(c, Get(m, k), t, call.now);
    BalancePasses(c, ahead, lost, Credit(c, Lookup(ss, k), t), Credit(c, Get(m, k), t), call.now - t);
    lost' := lost;
    if Lost(c, ss, call, k) {
      BalanceLoses(c, ahead, lost, Credit(c, Lookup(ss, k), call.now), Credit(c, Get(m, k), call.now));
      lost' := lost + 1;
    }
  }

  /** How many requests more the call lets through than the reference does. */
  function Gained(c: Config, ss: seq<Slot>, m: Buckets, call: Call, k: Key): int
    requires Valid(c)
  {
    if call.key != k then 0
    else Admit(Serve(c, ss, k, call.now).1.allowed) - Admit(RefServe(c, m, k, call.now).1.allowed)
  }

  lemma CallKeepsBalance(c: Config, ss: seq<Slot>, m: Buckets, t: int, call: Call, k: Key, ahead: int, lost: nat)
    returns (ahead': int, lost': nat)
    requires Valid(c) && Inv(c, ss, t) && Sound(c, Get(m, k), t) && t <= call.now
    requires Balanced(c, ahead, lost, Credit(c, Lookup(ss, k), t), Credit(c, Get(m, k), t))
    ensures lost' == lost + Admit(Lost(c, ss, call, k)) && ahead' == ahead + Gained(c, ss, m, call, k)
    ensures var after, refAfter := Serve(c, ss, call.key, call.now).0, RefServe(c, m, call.key, call.now).0;
            && Inv(c, after, call.now) && Sound(c, Get(refAfter, k), call.now)
            && Balanced(c, ahead', lost', Credit(c, Lookup(after, k), call.now), Credit(c, Get(refAfter, k), call.now))
  {
    var mine, theirs := Arrives(c, ss, call, k), Credit(c, Get(m, k), call.now);
    lost' := ArrivalKeepsBalance(c, ss, m, t, call, k, ahead, lost);
    ahead' := ahead + Gained(c, ss, m, call, k);
    ServeCredit(c, ss, t, call, k);
    RefServeCredit(c, m, t, call, k);
    if call.key == k {
      TakeOfCredit(c, mine, call.now);
      TakeOfCredit(c, theirs, call.now);
      var spent := BalanceSpends(c, ahead, lost', mine, theirs);
      assert spent == ahead';
    }
  }

  // ---- Whole runs -------------------------------------------------------------------------------------------

  lemma FirstCall(c: Config, ss: seq<Slot>, calls: seq<Call>, k: Key)
    requires Valid(c) && calls != []
    ensures var (after, d) := Serve(c, ss, calls[0].key, calls[0].now);
            && Count(Decisions(c, ss, calls, k))
               == (if calls[0].key == k then Admit(d.allowed) else 0) + Count(Decisions(c, after, calls[1..], k))
            && Losses(c, ss, calls, k) == Admit(Lost(c, ss, calls[0], k)) + Losses(c, after, calls[1..], k)
  {
    var (after, d) := Serve(c, ss, calls[0].key, calls[0].now);
    var rest := Decisions(c, after, calls[1..], k);
    assert ([d] + rest)[1..] == rest && [] + rest == rest;
  }

  lemma RefFirstCall(c: Config, m: Buckets, calls: seq<Call>, k: Key)
    requires Valid(c) && calls != []
    ensures var (after, d) := RefServe(c, m, calls[0].key, calls[0].now);
            Count(RefDecisions(c, m, calls, k))
            == (if calls[0].key == k then Admit(d.allowed) else 0) + Count(RefDecisions(c, after, calls[1..], k))
  {
    var (after, d) := RefServe(c, m, calls[0].key, calls[0].now);
    var rest := RefDecisions(c, after, calls[1..], k);
    assert ([d] + rest)[1..] == rest && [] + rest == rest;
  }

  /** One call moves the potential, and the counts of the run are those of the call and of the rest. */
  lemma DriftStep(c: Config, ss: seq<Slot>, m: Buckets, t: int, calls: seq<Call>, k: Key, ahead: int, lost: nat)
    returns (ahead': int, lost': nat)
    requires Valid(c) && Inv(c, ss, t) && Sound(c, Get(m, k), t) && calls != [] && t <= calls[0].now
    requires Balanced(c, ahead, lost, Credit(c, Lookup(ss, k), t), Credit(c, Get(m, k), t))
    ensures var call := calls[0];
            var after, refAfter := Serve(c, ss, call.key, call.now).0, RefServe(c, m, call.key, call.now).0;
            && Inv(c, after, call.now) && Sound(c, Get(refAfter, k), call.now)
            && Balanced(c, ahead', lost', Credit(c, Lookup(after, k), call.now), Credit(c, Get(refAfter, k), call.now))
            && lost + Losses(c, ss, calls, k) == lost' + Losses(c, after, calls[1..], k)
            && ahead + Count(Decisions(c, ss, calls, k)) - Count(RefDecisions(c, m, calls, k))
               == ahead' + Count(Decisions(c, after, calls[1..], k)) - Count(RefDecisions(c, refAfter, calls[1..], k))
  {
    ahead', lost' := CallKeepsBalance(c, ss, m, t, calls[0], k, ahead, lost);
    FirstCall(c, ss, calls, k);
    RefFirstCall(c, m, calls, k);
  }

  /** A lead of at most a burst per loss. */
  predicate WithinBursts(c: Config, lead: int, lost: nat) { 0 <= lead <= lost * c.policy.burst }

  lemma BalanceBoundsLead(c: Config, ahead: int, lost: nat, mine: int, theirs: int)
    requires Valid(c) && Balanced(c, ahead, lost, mine, theirs)
    ensures WithinBursts(c, ahead, lost)
  {
  }

  lemma {:induction false} DriftIsBounded(c: Config, ss: seq<Slot>, m: Buckets, t: int, calls: seq<Call>, k: Key,
                                          ahead: int, lost: nat)
    requires Valid(c) && Inv(c, ss, t) && Sound(c, Get(m, k), t) && InOrder(t, calls)
    requires Balanced(c, ahead, lost, Credit(c, Lookup(ss, k), t), Credit(c, Get(m, k), t))
    ensures WithinBursts(c, ahead + Count(Decisions(c, ss, calls, k)) - Count(RefDecisions(c, m, calls, k)),
                         lost + Losses(c, ss, calls, k))
    decreases |calls|
  {
    hide Balanced, WithinBursts, Inv, Sound, Credit, Serve, RefServe;
    if calls != [] {
      var call := calls[0];
      var after, refAfter := Serve(c, ss, call.key, call.now).0, RefServe(c, m, call.key, call.now).0;
      var ahead', lost' := DriftStep(c, ss, m, t, calls, k, ahead, lost);
      DriftIsBounded(c, after, refAfter, call.now, calls[1..], k, ahead', lost');
    } else {
      BalanceBoundsLead(c, ahead, lost, Credit(c, Lookup(ss, k), t), Credit(c, Get(m, k), t));
    }
  }

  /** The central comparison. On every sequence of requests with non-decreasing times - and so on
      every prefix of one - each key has been admitted at least as often as by a limiter that never
      forgets, and at most one burst more for every time its spent credit was lost. */
  lemma BoundedAgainstReference(c: Config, start: int, calls: seq<Call>, k: Key)
    requires Valid(c) && InOrder(start, calls)
    ensures var mine, theirs := Count(Decisions(c, [], calls, k)), Count(RefDecisions(c, map[], calls, k));
            theirs <= mine <= theirs + Losses(c, [], calls, k) * c.policy.burst
  {
    Bucket.FullIsWithinInterval(c.policy);
    DriftIsBounded(c, [], map[], start, calls, k, 0, 0);
  }

  lemma {:induction false} SameCreditSameDecisions(
    c: Config, ss: seq<Slot>, m: Buckets, t: int, calls: seq<Call>, k: Key)
    requires Valid(c) && Inv(c, ss, t) && Sound(c, Get(m, k), t) && InOrder(t, calls)
    requires Credit(c, Lookup(ss, k), t) == Credit(c, Get(m, k), t) && Losses(c, ss, calls, k) == 0
    ensures Decisions(c, ss, calls, k) == RefDecisions(c, m, calls, k)
    decreases |calls|
  {
    if calls != [] {
      var call := calls[0];
      LookupSound(c, ss, t, k);
      CreditGrows(c, Lookup(ss, k), t, call.now);
      CreditGrows(c, Get(m, k), t, call.now);
      ServeCredit(c, ss, t, call, k);
      RefServeCredit(c, m, t, call, k);
      SameCreditSameDecisions(c, Serve(c, ss, call.key, call.now).0, RefServe(c, m, call.key, call.now).0, call.now,
                              calls[1..], k);
    }
  }

  /** A key whose spent credit was never lost gets exactly the decisions of the reference, down to
      every Retry-After. */
  lemma NothingLostNothingSeen(c: Config, start: int, calls: seq<Call>, k: Key)
    requires Valid(c) && InOrder(start, calls) && Losses(c, [], calls, k) == 0
    ensures Decisions(c, [], calls, k) == RefDecisions(c, map[], calls, k)
  {
    SameCreditSameDecisions(c, [], map[], start, calls, k);
  }
}
