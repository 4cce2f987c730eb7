/** The bounded limiter: a list of entries in order of use and a map from keys to the same
    entries, kept within a capacity and an idle TTL. */
module Limiter {
  import opened Common
  import Bucket

  type Key = nat  // keys are opaque strings; only equality is ever used

  datatype Config = Config(policy: Bucket.Policy, capacity: int, ttl: int)

  predicate Valid(c: Config) { Bucket.Valid(c.policy) && c.capacity >= 1 && c.ttl >= 0 }

  datatype Slot = Slot(key: Key, bucket: Bucket.State)

  function Last<T>(s: seq<T>): T
    requires s != []
  {
    s[|s| - 1]
  }

  function Front<T>(s: seq<T>): seq<T>
    requires s != []
  {
    s[..|s| - 1]
  }

  // ---- Specification on values: slots, most recently used first ---------------------------------

  predicate Stale(c: Config, s: Slot, now: int) { c.ttl > 0 && now - s.bucket.updatedAt >= c.ttl }

  /** The walk from the back, which stops at the first entry still young enough. */
  function Expire(c: Config, ss: seq<Slot>, now: int): seq<Slot> {
    if ss != [] && Stale(c, Last(ss), now) then Expire(c, Front(ss), now) else ss
  }

  /** Making room for one more. */
  function Evict(c: Config, ss: seq<Slot>): seq<Slot>
    requires c.capacity >= 1
  {
    if |ss| >= c.capacity then Evict(c, Front(ss)) else ss
  }

  function Lookup(ss: seq<Slot>, key: Key): Option<Bucket.State> {
    if ss == [] then None
    else if Last(ss).key == key then Some(Last(ss).bucket)
    else Lookup(Front(ss), key)
  }

  function Remove(ss: seq<Slot>, key: Key): seq<Slot> {
    if ss == [] then []
    else if Last(ss).key == key then Front(ss)
    else Remove(Front(ss), key) + [Last(ss)]
  }

  /** The bucket a request for `key` is charged to, and the other slots that stay. */
  function Charged(c: Config, ss: seq<Slot>, key: Key, now: int): (Bucket.State, seq<Slot>)
    requires Valid(c)
  {
    var young := Expire(c, ss, now);
    match Lookup(young, key)
    case Some(bucket) => (bucket, Remove(young, key))
    case None => (Bucket.Fresh(c.policy, now), Evict(c, young))
  }

  function Serve(c: Config, ss: seq<Slot>, key: Key, now: int): (seq<Slot>, Bucket.Decision)
    requires Valid(c)
  {
    var (bucket, rest) := Charged(c, ss, key, now);
    var (spent, d) := Bucket.Take(c.policy, bucket, now);
    ([Slot(key, spent)] + rest, d)
  }

  // ---- The same by position ---------------------------------------------------------------------

  /** A slot outlives a call at `now` when the TTL is off, or when it or one less recently used is
      younger than the TTL. */
  ghost predicate Survives(c: Config, ss: seq<Slot>, now: int, i: nat) {
    exists j :: i <= j < |ss| && (c.ttl <= 0 || now - ss[j].bucket.updatedAt < c.ttl)
  }

  /** On a list in any order the walk from the back stops at the first young entry. */
  lemma {:induction false} ExpireByIndex(c: Config, ss: seq<Slot>, now: int, i: nat)
    requires i < |ss|
    ensures i < |Expire(c, ss, now)| <==> Survives(c, ss, now, i)
    ensures Expire(c, ss, now) <= ss
  {
    var n := |ss| - 1;
    if Stale(c, Last(ss), now) {
      ExpireShortens(c, Front(ss), now);
      if i < n {
        ExpireByIndex(c, Front(ss), now, i);
        assert forall j | i <= j < n :: Front(ss)[j] == ss[j];
      }
    } else {
      assert i <= n < |ss| && (c.ttl <= 0 || now - ss[n].bucket.updatedAt < c.ttl);
    }
  }

  lemma {:induction false} ExpireShortens(c: Config, ss: seq<Slot>, now: int)
    ensures Expire(c, ss, now) <= ss
  {
    if ss != [] && Stale(c, Last(ss), now) { ExpireShortens(c, Front(ss), now); }
  }

  lemma {:induction false} EvictByIndex(c: Config, ss: seq<Slot>)
    requires c.capacity >= 1
    ensures Evict(c, ss) == if |ss| < c.capacity then ss else ss[..c.capacity - 1]
  {
    if |ss| >= c.capacity { EvictByIndex(c, Front(ss)); }
  }

  lemma {:induction false} HeldByIndex(ss: seq<Slot>, key: Key, i: nat)
    requires i < |ss| && ss[i].key == key && forall j | i < j < |ss| :: ss[j].key != key
    ensures Lookup(ss, key) == Some(ss[i].bucket) && Remove(ss, key) == ss[..i] + ss[i + 1..]
  {
    if i < |ss| - 1 {
      HeldByIndex(Front(ss), key, i);
      assert ss[i + 1..] == Front(ss)[i + 1..] + [Last(ss)];
    }
  }

  lemma {:induction false} UnheldByIndex(ss: seq<Slot>, key: Key)
    requires forall i | 0 <= i < |ss| :: ss[i].key != key
    ensures Lookup(ss, key) == None
  {
    if ss != [] { UnheldByIndex(Front(ss), key); }
  }

  /** Nanoseconds by which the clock moved on; a clock that went back counts for nothing. */
  function Passed(since: int, now: int): nat { if now > since then now - since else 0 }

  /** What a bucket is worth at `now` if it may run over. */
  function WorthAt(b: Bucket.State, now: int): int { b.credit + Passed(b.updatedAt, now) }

  /** A price is paid when the worth covers it; otherwise the refusal says how long that takes. */
  predicate Pays(d: Bucket.Decision, worth: int, price: int) {
    (d.allowed <==> worth >= price) && (!d.allowed ==> Bucket.WholeSeconds(d.retryAfter, price - worth))
  }

  /** A call of a key that is held by one of the `n` slots that survive: the key moves to the front
      with the credit it had and what passed since, a burst at most; a burst-th of the interval is the
      price of a request. */
  lemma ServeHeld(c: Config, ss: seq<Slot>, key: Key, now: int, n: nat, i: nat)
    requires Valid(c) && i < n <= |ss| && ss[i].key == key && forall j | i < j < n :: ss[j].key != key
    requires forall j | 0 <= j < |ss| :: Survives(c, ss, now, j) <==> j < n
    ensures var (after, d) := Serve(c, ss, key, now);
            var was, price := ss[i].bucket, c.policy.interval / c.policy.burst;
            var worth := WorthAt(was, now);
            && Pays(d, worth, price)
            && |after| == n && after[0].key == key && after[0].bucket.updatedAt == now
            && (was.credit <= c.policy.burst * price ==>
                after[0].bucket.credit == Bucket.Min(c.policy.burst * price, worth) - if d.allowed then price else 0)
            && after[1..] == ss[..i] + ss[i + 1..n]
  {
    Bucket.FullIsWithinInterval(c.policy);
    YoungIsPrefix(c, ss, now, n);
    HeldByIndex(ss[..n], key, i);
    Bucket.RoundedWait(Bucket.TokenInterval(c.policy) - Bucket.Refill(c.policy, ss[i].bucket, now));
  }

  /** A call of any other key is admitted with a full bucket, in front of the survivors that still fit. */
  lemma ServeUnheld(c: Config, ss: seq<Slot>, key: Key, now: int, n: nat)
    requires Valid(c) && n <= |ss| && forall j | 0 <= j < n :: ss[j].key != key
    requires forall j | 0 <= j < |ss| :: Survives(c, ss, now, j) <==> j < n
    ensures var (after, d) := Serve(c, ss, key, now);
            var price := c.policy.interval / c.policy.burst;
            && d.allowed
            && after == [Slot(key, Bucket.State(c.policy.burst * price - price, now))]
                        + if n < c.capacity then ss[..n] else ss[..c.capacity - 1]
  {
    Bucket.FullIsWithinInterval(c.policy);
    YoungIsPrefix(c, ss, now, n);
    UnheldByIndex(ss[..n], key);
    EvictByIndex(c, ss[..n]);
  }

  predicate Apart(ss: seq<Slot>) { forall i, j | 0 <= i < j < |ss| :: ss[i].key != ss[j].key }

  /** The decision of a call, from the slots before it: a key that is not held any more is admitted, and
      one that is pays out of its credit and what passed since. */
  ghost predicate Decided(c: Config, ss: seq<Slot>, key: Key, now: int, d: Bucket.Decision)
    requires c.policy.burst != 0
  {
    && (forall i | 0 <= i < |ss| && ss[i].key == key && Survives(c, ss, now, i) ::
          Pays(d, WorthAt(ss[i].bucket, now), c.policy.interval / c.policy.burst))
    && ((forall i | 0 <= i < |ss| && ss[i].key == key :: !Survives(c, ss, now, i)) ==> d.allowed)
  }

  lemma ServeDecides(c: Config, ss: seq<Slot>, key: Key, now: int)
    requires Valid(c) && Apart(ss)
    ensures Decided(c, ss, key, now, Serve(c, ss, key, now).1)
  {
    var n := |Expire(c, ss, now)|;
    ExpireShortens(c, ss, now);
    forall j | 0 <= j < |ss| ensures Survives(c, ss, now, j) <==> j < n { ExpireByIndex(c, ss, now, j); }
    if i :| 0 <= i < n && ss[i].key == key {
      ServeHeld(c, ss, key, now, n, i);
    } else {
      ServeUnheld(c, ss, key, now, n);
    }
  }

  lemma YoungIsPrefix(c: Config, ss: seq<Slot>, now: int, n: nat)
    requires n <= |ss| && forall j | 0 <= j < |ss| :: Survives(c, ss, now, j) <==> j < n
    ensures Expire(c, ss, now) == ss[..n]
  {
    ExpireShortens(c, ss, now);
    if n < |ss| { ExpireByIndex(c, ss, now, n); }
    if n > 0 { ExpireByIndex(c, ss, now, n - 1); }
  }

  /** New: a policy that cannot be enforced, no capacity or a negative TTL is refused. */
  method New(config: Config) returns (limiter: Option<Bounded>)
    ensures limiter.Some? <==>
              1 <= config.policy.burst <= config.policy.interval && config.capacity >= 1 && config.ttl >= 0
    ensures limiter.Some? ==>
              var l := limiter.value;
              fresh(l) && l.Rep() && fresh(l.Repr) && l.Slots() == [] && l.config == config
  {
    Bucket.ValidIff(config.policy);
    if config.policy.burst < 1 || config.policy.interval <= 0 || config.policy.interval / config.policy.burst <= 0 {
      return None;
    }
    if config.capacity < 1 || config.ttl < 0 { return None; }
    var l := new Bounded(config);
    return Some(l);
  }

  // ---- The structure itself -----------------------------------------------------------------------

  class Entry {
    const key: Key
    var credit: int
    var updatedAt: int

    constructor (key: Key, bucket: Bucket.State)
      ensures this.key == key && View() == Slot(key, bucket)
    {
      this.key, credit, updatedAt := key, bucket.credit, bucket.updatedAt;
    }

    function View(): Slot
      reads this
    {
      Slot(key, Bucket.State(credit, updatedAt))
    }

    method Take(policy: Bucket.Policy, now: int) returns (d: Bucket.Decision)
      requires Bucket.Valid(policy)
      modifies this
      ensures (View().bucket, d) == Bucket.Take(policy, old(View().bucket), now)
      ensures d.allowed <==> old(credit) + Passed(old(updatedAt), now) >= policy.interval / policy.burst
    {
      Bucket.FullIsWithinInterval(policy);
      var tau := Bucket.TokenInterval(policy);
      var elapsed := now - updatedAt;
      if elapsed > 0 { credit := Bucket.Min(Bucket.Full(policy), credit + elapsed); }
      updatedAt := now;
      if credit >= tau {
        credit := credit - tau;
        return Bucket.Decision(true, 0);
      }
      var missing := tau - credit;
      return Bucket.Decision(false, Bucket.RoundUpToSecond(missing));
    }
  }

  function Views(es: seq<Entry>): (ss: seq<Slot>)
    reads es
    ensures |ss| == |es|
  {
    if es == [] then [] else Views(Front(es)) + [Last(es).View()]
  }

  lemma {:induction false} ViewsByIndex(es: seq<Entry>)
    ensures forall i | 0 <= i < |es| :: Views(es)[i] == es[i].View()
  {
    if es != [] { ViewsByIndex(Front(es)); }
  }

  /** The list and the map hold the same entries, each under its own key, once: dropping the back
      of the list and its map entry together reaches the empty list and the empty map. */
  ghost predicate Linked(es: seq<Entry>, m: map<Key, Entry>) {
    if es == [] then m == map[]
    else
      var last := Last(es);
      last.key in m && m[last.key] == last && Linked(Front(es), m - {last.key})
  }

  /** What that means entry by entry. */
  lemma {:induction false} LinkedMeans(es: seq<Entry>, m: map<Key, Entry>)
    requires Linked(es, m)
    ensures forall e | e in es :: e.key in m && m[e.key] == e
    ensures forall i, j | 0 <= i < j < |es| :: es[i].key != es[j].key
    ensures forall k | k in m :: m[k] in es && m[k].key == k
  {
    if es != [] {
      var last := Last(es);
      var front, others := Front(es), m - {last.key};
      LinkedMeans(front, others);
      forall i, j | 0 <= i < j < |es| ensures es[i].key != es[j].key {
        assert es[i] == front[i] && front[i] in front;
        if j < |front| { assert es[j] == front[j]; }
      }
      forall k | k in m ensures m[k] in es && m[k].key == k {
        if k != last.key { assert k in others && others[k] in front; }
      }
    }
  }

  /** Looking a key up in the map finds what a search of the list finds. */
  lemma {:induction false} LinkedLookup(es: seq<Entry>, m: map<Key, Entry>, key: Key)
    requires Linked(es, m)
    ensures key in m ==> m[key].key == key && m[key] in es
    ensures Lookup(Views(es), key) == if key in m then Some(m[key].View().bucket) else None
  {
    if es != [] {
      LinkedLookup(Front(es), m - {Last(es).key}, key);
      assert Front(Views(es)) == Views(Front(es));
    }
  }

  lemma {:induction false} LinkedFront(es: seq<Entry>, m: map<Key, Entry>, e: Entry)
    requires Linked(es, m) && e.key !in m
    ensures Linked([e] + es, m[e.key := e])
  {
    var all, grown := [e] + es, m[e.key := e];
    if es == [] {
      assert Front(all) == [] && all == [e];
      assert grown - {e.key} == map[];
    } else {
      var last := Last(es);
      LinkedFront(Front(es), m - {last.key}, e);
      assert Front(all) == [e] + Front(es);
      assert grown - {last.key} == (m - {last.key})[e.key := e];
    }
  }

  lemma {:induction false} ViewsFront(e: Entry, es: seq<Entry>)
    ensures Views([e] + es) == [e.View()] + Views(es)
  {
    if es == [] {
      assert Front([e]) == [];
    } else {
      ViewsFront(e, Front(es));
      assert Front([e] + es) == [e] + Front(es);
    }
  }

  /** The list once an entry has been unlinked. */
  function Without(es: seq<Entry>, e: Entry): seq<Entry> {
    if es == [] then [] else if Last(es) == e then Front(es) else Without(Front(es), e) + [Last(es)]
  }

  lemma {:induction false} LinkedWithout(es: seq<Entry>, m: map<Key, Entry>, key: Key)
    requires Linked(es, m) && key in m
    ensures Linked(Without(es, m[key]), m - {key}) && |Without(es, m[key])| == |es| - 1
  {
    var last := Last(es);
    if last.key != key {
      var others := m - {last.key};
      LinkedWithout(Front(es), others, key);
      LinkedLookup(Front(es), others, key);
      var kept := Without(Front(es), m[key]);
      assert Front(kept + [last]) == kept;
      assert m - {key} - {last.key} == others - {key};
    }
  }

  lemma {:induction false} ViewsWithout(es: seq<Entry>, m: map<Key, Entry>, key: Key)
    requires Linked(es, m) && key in m
    ensures Views(Without(es, m[key])) == Remove(Views(es), key)
  {
    var last := Last(es);
    assert Front(Views(es)) == Views(Front(es));
    if last.key != key {
      var others := m - {last.key};
      ViewsWithout(Front(es), others, key);
      LinkedLookup(Front(es), others, key);
      var kept := Without(Front(es), m[key]);
      assert Front(kept + [last]) == kept;
    }
  }

  lemma {:induction false} WithoutIsPart(es: seq<Entry>, e: Entry)
    ensures forall x | x in Without(es, e) :: x in es
  {
    if es != [] { WithoutIsPart(Front(es), e); }
  }

  /** Moving an entry to the front keeps the two in step. */
  lemma LinkedMove(es: seq<Entry>, m: map<Key, Entry>, key: Key)
    requires Linked(es, m) && key in m
    ensures m[key].key == key && m[key] in es
    ensures Linked([m[key]] + Without(es, m[key]), m) && |Without(es, m[key])| == |es| - 1
    ensures Views([m[key]] + Without(es, m[key])) == [m[key].View()] + Remove(Views(es), key)
    ensures Lookup(Views(es), key) == Some(m[key].View().bucket)
  {
    LinkedLookup(es, m, key);
    LinkedWithout(es, m, key);
    ViewsWithout(es, m, key);
    LinkedFront(Without(es, m[key]), m - {key}, m[key]);
    ViewsFront(m[key], Without(es, m[key]));
    assert (m - {key})[key := m[key]] == m;
  }

  class Bounded {
    const config: Config
    var order: seq<Entry>
    var buckets: map<Key, Entry>
    ghost var Repr: set<Entry>

    ghost predicate Rep()
      reads this
    {
      && Valid(config) && |order| <= config.capacity && Linked(order, buckets)
      && forall e | e in order :: e in Repr
    }

    function Slots(): (ss: seq<Slot>)
      reads this, order
    {
      Views(order)
    }

    constructor (config: Config)
      requires Valid(config)
      ensures Rep() && fresh(Repr) && Slots() == [] && this.config == config
    {
      this.config, order, buckets, Repr := config, [], map[], {};
    }

    /** Unlinks the back of the list together with its map entry. */
    method DropOldest()
      requires Rep() && order != []
      modifies this`order, this`buckets
      ensures Rep() && |order| == |old(order)| - 1 && buckets.Keys <= old(buckets).Keys
      ensures Slots() == Front(old(Slots()))
    {
      var oldest := Last(order);
      assert Front(Slots()) == Views(Front(order));
      order, buckets := Front(order), buckets - {oldest.key};
    }

    method ExpireIdle(now: int)
      requires Rep()
      modifies this`order, this`buckets
      ensures Rep() && Slots() == Expire(config, old(Slots()), now)
      ensures Slots() <= old(Slots())
      ensures forall i | 0 <= i < |old(Slots())| :: i < |Slots()| <==> Survives(config, old(Slots()), now, i)
    {
      ghost var before := Slots();
      ExpireShortens(config, before, now);
      forall i | 0 <= i < |before| ensures i < |Expire(config, before, now)| <==> Survives(config, before, now, i) {
        ExpireByIndex(config, before, now, i);
      }
      if config.ttl <= 0 { return; }
      while order != []
        invariant Rep()
        invariant Expire(config, Slots(), now) == Expire(config, old(Slots()), now)
        decreases |order|
      {
        if now - Last(order).updatedAt < config.ttl { return; }
        DropOldest();
      }
    }

    method EvictIfFull()
      requires Rep()
      modifies this`order, this`buckets
      ensures Rep() && |order| < config.capacity && buckets.Keys <= old(buckets).Keys
      ensures Slots() == Evict(config, old(Slots()))
      ensures Slots() == if |old(Slots())| < config.capacity then old(Slots()) else old(Slots())[..config.capacity - 1]
    {
      EvictByIndex(config, Slots());
      while |order| >= config.capacity
        invariant Rep() && buckets.Keys <= old(buckets).Keys
        invariant Evict(config, Slots()) == Evict(config, old(Slots()))
        decreases |order|
      {
        DropOldest();
      }
    }

    /** A key that is held keeps its bucket and moves to the front. */
    method MoveToFront(element: Entry)
      requires Rep() && element.key in buckets && buckets[element.key] == element
      modifies this`order
      ensures Rep() && order != [] && order[0] == element
      ensures Lookup(old(Slots()), element.key) == Some(element.View().bucket)
      ensures Slots() == [element.View()] + Remove(old(Slots()), element.key)
    {
      LinkedMove(order, buckets, element.key);
      WithoutIsPart(order, element);
      order := [element] + Without(order, element);
    }

    method PushFront(element: Entry)
      requires Rep() && element.key !in buckets && |order| < config.capacity
      modifies this`order, this`buckets, this`Repr
      ensures Rep() && order == [element] + old(order) && Repr == old(Repr) + {element}
      ensures Slots() == [element.View()] + old(Slots())
    {
      LinkedFront(order, buckets, element);
      ViewsFront(element, order);
      order, buckets, Repr := [element] + order, buckets[element.key := element], Repr + {element};
    }

    /** A new key starts full, at the expense of the least recently used one when there is no room. */
    method Insert(key: Key, now: int) returns (element: Entry)
      requires Rep() && key !in buckets
      modifies this`order, this`buckets, this`Repr
      ensures Rep() && order != [] && order[0] == element && element.key == key
      ensures fresh(element) && Repr == old(Repr) + {element}
      ensures Lookup(old(Slots()), key) == None
      ensures Slots() == [Slot(key, Bucket.Fresh(config.policy, now))] + Evict(config, old(Slots()))
    {
      LinkedLookup(order, buckets, key);
      EvictIfFull();
      element := new Entry(key, Bucket.Fresh(config.policy, now));
      PushFront(element);
    }

    /** Charges the front entry; the others keep their credit. */
    method TakeFront(element: Entry, now: int) returns (d: Bucket.Decision)
      requires Rep() && order != [] && order[0] == element
      modifies element
      ensures var (spent, decision) := Bucket.Take(config.policy, old(Slots())[0].bucket, now);
              d == decision && Slots() == [Slot(element.key, spent)] + old(Slots())[1..]
    {
      ghost var rest := order[1..];
      LinkedMeans(order, buckets);
      assert order == [element] + rest && element !in rest;
      ViewsFront(element, rest);
      d := element.Take(config.policy, now);
      ViewsFront(element, rest);
    }

    /** Brings the entry of `key` to the front, or creates it there. */
    method Reach(key: Key, now: int) returns (element: Entry)
      requires Rep()
      modifies this`order, this`buckets, this`Repr
      ensures Rep() && order != [] && order[0] == element && element.key == key
      ensures fresh(Repr - old(Repr)) && element in Repr
      ensures var (bucket, rest) := Charged(config, old(Slots()), key, now);
              Slots() == [Slot(key, bucket)] + rest
    {
      ExpireIdle(now);
      if key in buckets {
        LinkedLookup(order, buckets, key);
        element := buckets[key];
        MoveToFront(element);
      } else {
        element := Insert(key, now);
      }
    }

    /** A whole call: what `Serve` says of the slots, in place. */
    method Allow(key: Key, now: int) returns (d: Bucket.Decision)
      requires Rep()
      modifies this`order, this`buckets, this`Repr, Repr
      ensures Rep() && fresh(Repr - old(Repr))
      ensures (Slots(), d) == Serve(config, old(Slots()), key, now)
      // What that decides, from the entries in the list.
      ensures Decided(config, old(Slots()), key, now, d)
    {
      LinkedMeans(order, buckets);
      ViewsByIndex(order);
      ServeDecides(config, Slots(), key, now);
      var element := Reach(key, now);
      d := TakeFront(element, now);
    }
  }
}
