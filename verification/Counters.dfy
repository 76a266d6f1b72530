/**
 Redis counters that expire: INCR, EXPIRE and GET, against the plain log of every increment.
 Time is whole milliseconds. An expired counter reads as absent and the next INCR starts it
 again without an expiry. Keys have a fixed time to live each.
 */
module Counters {
  import opened Wrappers

  type Time = int

  datatype Counter = Counter(value: nat, expiry: Option<Time>)

  /** One INCR: when it took effect and what it returned. */
  datatype Increment<K> = Increment(key: K, at: Time, ordinal: nat)

  datatype Store<K> = Store(counters: map<K, Counter>, clock: Time, log: seq<Increment<K>>)

  function Empty<K>(clock: Time): Store<K> {
    Store(map[], clock, [])
  }

  predicate Live<K>(s: Store<K>, k: K) {
    k in s.counters && (s.counters[k].expiry.Some? ==> s.clock < s.counters[k].expiry.value)
  }

  function Get<K>(s: Store<K>, k: K): nat {
    if Live(s, k) then s.counters[k].value else 0
  }

  function Incr<K>(s: Store<K>, k: K): Store<K> {
    var n := Get(s, k) + 1;
    var expiry := if Live(s, k) then s.counters[k].expiry else None;
    s.(counters := s.counters[k := Counter(n, expiry)], log := s.log + [Increment(k, s.clock, n)])
  }

  function Expire<K>(s: Store<K>, k: K, ttl: Time): Store<K> {
    if Live(s, k) then s.(counters := s.counters[k := s.counters[k].(expiry := Some(s.clock + ttl))]) else s
  }

  function Pass<K>(s: Store<K>, d: nat): Store<K> {
    s.(clock := s.clock + d)
  }

  /** Increments of k, each with some time passing after it. */
  function Bumps<K>(s: Store<K>, k: K, waits: seq<nat>): Store<K>
    decreases |waits|
  {
    if waits == [] then s else Bumps(Pass(Incr(s, k), waits[0]), k, waits[1..])
  }

  function Sum(waits: seq<nat>): nat {
    if waits == [] then 0 else waits[0] + Sum(waits[1..])
  }

  /** Increments do not prolong a counter: it is gone when its time to live is over, however often it was bumped since. */
  lemma {:induction false} NotProlonged<K(!new)>(s: Store<K>, k: K, waits: seq<nat>, left: nat)
    requires Live(s, k) && left > 0 && s.counters[k].expiry == Some(s.clock + Sum(waits) + left)
    ensures var t := Bumps(s, k, waits);
            Live(t, k) && Get(t, k) == Get(s, k) + |waits| && Get(Pass(t, left), k) == 0
    decreases |waits|
  {
    if waits != [] { NotProlonged(Pass(Incr(s, k), waits[0]), k, waits[1..], left); }
  }

  // ----- The log -----

  function Count<K(==)>(log: seq<Increment<K>>, k: K): (n: nat)
    ensures n <= |log|
  {
    if log == [] then 0 else Count(log[..|log| - 1], k) + if log[|log| - 1].key == k then 1 else 0
  }

  function First<K(==)>(log: seq<Increment<K>>, k: K): Option<Time> {
    if log == [] then None
    else
      var first := First(log[..|log| - 1], k);
      if first == None && log[|log| - 1].key == k then Some(log[|log| - 1].at) else first
  }

  /** Less than one time to live has passed since the first increment of k. */
  predicate Within<K(==)>(log: seq<Increment<K>>, k: K, ttl: Time, t: Time) {
    First(log, k).Some? ==> t < First(log, k).value + ttl
  }

  lemma Snoc<K(!new)>(log: seq<Increment<K>>, e: Increment<K>, k: K)
    ensures Count(log + [e], k) == Count(log, k) + if e.key == k then 1 else 0
    ensures First(log + [e], k) == if First(log, k) == None && e.key == k then Some(e.at) else First(log, k)
  {
    assert (log + [e])[..|log|] == log;
  }

  lemma {:induction false} CountGrows<K(!new)>(log: seq<Increment<K>>, i: nat, j: nat, k: K)
    requires i <= j <= |log|
    ensures Count(log[..i], k) <= Count(log[..j], k)
    ensures i < j && log[j - 1].key == k ==> Count(log[..i], k) < Count(log[..j], k)
    decreases j
  {
    if i < j {
      CountGrows(log, i, j - 1, k);
      assert log[..j][..j - 1] == log[..j - 1];
    }
  }

  lemma {:induction false} FirstStays<K(!new)>(log: seq<Increment<K>>, i: nat, k: K)
    requires i < |log| && log[i].key == k
    ensures First(log, k).Some?
    ensures First(log[..i + 1], k) == First(log, k)
    decreases |log|
  {
    var n := |log| - 1;
    if i < n {
      FirstStays(log[..n], i, k);
      assert log[..n][..i + 1] == log[..i + 1];
    } else {
      assert log[..i + 1] == log;
    }
  }

  // ----- What every command keeps -----

  ghost predicate CounterKept<K(!new)>(s: Store<K>, ttl: K -> Time, k: K) {
    && (k in s.counters ==> First(s.log, k).Some?)
    && (k in s.counters && s.counters[k].expiry.Some? ==> s.counters[k].expiry.value >= First(s.log, k).value + ttl(k))
    && (First(s.log, k).Some? && Within(s.log, k, ttl(k), s.clock) ==> k in s.counters && s.counters[k].value == Count(s.log, k))
    && (First(s.log, k) == None ==> Count(s.log, k) == 0)
  }

  /** Increment i was made within its key's time to live, and then returned its place in the log of that key. */
  ghost predicate OrdinalKept<K(!new)>(log: seq<Increment<K>>, ttl: K -> Time, i: nat)
    requires i < |log|
  {
    var e := log[i];
    Within(log[..i + 1], e.key, ttl(e.key), e.at) ==> e.ordinal == Count(log[..i + 1], e.key)
  }

  ghost predicate OrdinalsKept<K(!new)>(log: seq<Increment<K>>, ttl: K -> Time) {
    forall i :: 0 <= i < |log| ==> OrdinalKept(log, ttl, i)
  }

  ghost predicate InPast<K>(log: seq<Increment<K>>, clock: Time) {
    forall i :: 0 <= i < |log| ==> log[i].at <= clock
  }

  ghost predicate Kept<K(!new)>(s: Store<K>, ttl: K -> Time) {
    (forall k :: CounterKept(s, ttl, k)) && OrdinalsKept(s.log, ttl) && InPast(s.log, s.clock)
  }

  lemma EmptyKept<K(!new)>(clock: Time, ttl: K -> Time)
    ensures Kept(Empty(clock), ttl)
  {
  }

  lemma IncrCounterKept<K(!new)>(s: Store<K>, ttl: K -> Time, key: K, k: K)
    requires CounterKept(s, ttl, key) && CounterKept(s, ttl, k) && ttl(key) > 0
    ensures CounterKept(Incr(s, key), ttl, k)
  {
    var s' := Incr(s, key);
    Snoc(s.log, s'.log[|s.log|], k);
  }

  lemma IncrOrdinalKept<K(!new)>(s: Store<K>, ttl: K -> Time, key: K, i: nat)
    requires CounterKept(s, ttl, key) && OrdinalsKept(s.log, ttl) && i <= |s.log|
    ensures OrdinalKept(Incr(s, key).log, ttl, i)
  {
    var s' := Incr(s, key);
    if i < |s.log| {
      assert OrdinalKept(s.log, ttl, i);
      assert s'.log[..i + 1] == s.log[..i + 1];
    } else {
      Snoc(s.log, s'.log[|s.log|], key);
      assert s'.log[..i + 1] == s.log + [s'.log[|s.log|]];
    }
  }

  lemma IncrKept<K(!new)>(s: Store<K>, ttl: K -> Time, key: K)
    requires Kept(s, ttl) && ttl(key) > 0
    ensures Kept(Incr(s, key), ttl)
  {
    var s' := Incr(s, key);
    assert CounterKept(s, ttl, key);
    forall k ensures CounterKept(s', ttl, k) {
      assert CounterKept(s, ttl, k);
      IncrCounterKept(s, ttl, key, k);
    }
    forall i | 0 <= i < |s'.log| ensures OrdinalKept(s'.log, ttl, i) {
      IncrOrdinalKept(s, ttl, key, i);
    }
  }

  lemma ExpireKept<K(!new)>(s: Store<K>, ttl: K -> Time, key: K)
    requires Kept(s, ttl)
    ensures Kept(Expire(s, key, ttl(key)), ttl)
  {
    var s' := Expire(s, key, ttl(key));
    forall k ensures CounterKept(s', ttl, k) {
      assert CounterKept(s, ttl, k);
      FirstInPast(s, ttl, k);
    }
  }

  lemma {:induction false} FirstIsAnEntry<K(!new)>(log: seq<Increment<K>>, k: K)
    requires First(log, k).Some?
    ensures exists i :: 0 <= i < |log| && log[i].key == k && First(log, k) == Some(log[i].at)
  {
    var n := |log| - 1;
    if First(log[..n], k).Some? {
      FirstIsAnEntry(log[..n], k);
      var i :| 0 <= i < n && log[..n][i].key == k && First(log[..n], k) == Some(log[..n][i].at);
      assert log[i] == log[..n][i];
    }
  }

  lemma FirstInPast<K(!new)>(s: Store<K>, ttl: K -> Time, k: K)
    requires Kept(s, ttl)
    ensures First(s.log, k).Some? ==> First(s.log, k).value <= s.clock
  {
    if First(s.log, k).Some? {
      FirstIsAnEntry(s.log, k);
    }
  }

  lemma PassKept<K(!new)>(s: Store<K>, ttl: K -> Time, d: nat)
    requires Kept(s, ttl)
    ensures Kept(Pass(s, d), ttl)
  {
    var s' := Pass(s, d);
    forall k ensures CounterKept(s', ttl, k) {
      assert CounterKept(s, ttl, k);
    }
  }

  // ----- Main results -----

  /**
   Until a key's time to live has passed since its first increment, its counter is the number of its
   increments, and has not expired.
   */
  lemma CounterIsLog<K(!new)>(s: Store<K>, ttl: K -> Time, k: K)
    requires Kept(s, ttl) && Within(s.log, k, ttl(k), s.clock)
    ensures Get(s, k) == Count(s.log, k)
    ensures Count(s.log, k) > 0 ==> Live(s, k)
  {
    assert CounterKept(s, ttl, k);
  }

  /** An increment within its key's time to live returned its place among the key's increments. */
  lemma OrdinalIsPlace<K(!new)>(s: Store<K>, ttl: K -> Time, i: nat)
    requires Kept(s, ttl) && i < |s.log| && Within(s.log, s.log[i].key, ttl(s.log[i].key), s.log[i].at)
    ensures s.log[i].ordinal == Count(s.log[..i + 1], s.log[i].key) > 0
  {
    var k := s.log[i].key;
    FirstStays(s.log, i, k);
    assert OrdinalKept(s.log, ttl, i);
    CountGrows(s.log, i, i + 1, k);
  }

  /** Two increments of a key within its time to live return different ordinals, the later one the larger. */
  lemma OrdinalsRise<K(!new)>(s: Store<K>, ttl: K -> Time, k: K, i: nat, j: nat)
    requires Kept(s, ttl) && i < j < |s.log| && s.log[i].key == k && s.log[j].key == k
    requires Within(s.log, k, ttl(k), s.log[i].at) && Within(s.log, k, ttl(k), s.log[j].at)
    ensures 0 < s.log[i].ordinal < s.log[j].ordinal
  {
    OrdinalIsPlace(s, ttl, i);
    OrdinalIsPlace(s, ttl, j);
    LaterCountsMore(s.log, k, i, j);
  }

  lemma LaterCountsMore<K(!new)>(log: seq<Increment<K>>, k: K, i: nat, j: nat)
    requires i < j < |log| && log[j].key == k
    ensures Count(log[..i + 1], k) < Count(log[..j + 1], k)
  {
    CountGrows(log, i + 1, j + 1, k);
  }
}
