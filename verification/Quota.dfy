/**
 Per-tenant request quotas (backend/app/repositories/quota_repository.py, `hit`, `usage`;
 backend/app/dependencies/enterprise.py, `enforce_quota`): two expiring counters a request bumps,
 one command a step, any number of requests at once. A request may stop for good after any command.
 */
module Quotas {
  import opened Wrappers
  import opened Counters

  type TenantId = nat

  const DAY: Time := 86_400_000
  const MINUTE: Time := 60_000

  datatype Key = Daily(tenant: TenantId, day: int) | PerMinute(tenant: TenantId, minute: int)

  function DailyKey(tenant: TenantId, now: Time): Key {
    Daily(tenant, now / DAY)
  }

  function MinuteKey(tenant: TenantId, now: Time): Key {
    PerMinute(tenant, now / MINUTE)
  }

  const TTL: Key -> Time := (k: Key) => match k { case Daily(_, _) => 2 * DAY case PerMinute(_, _) => 2 * MINUTE }

  function Start(k: Key): Time {
    match k
    case Daily(_, d) => d * DAY
    case PerMinute(_, m) => m * MINUTE
  }

  function Length(k: Key): Time {
    match k
    case Daily(_, _) => DAY
    case PerMinute(_, _) => MINUTE
  }

  predicate InWindow(k: Key, t: Time) {
    Start(k) <= t < Start(k) + Length(k)
  }

  lemma KeysHoldNow(tenant: TenantId, now: Time)
    ensures InWindow(DailyKey(tenant, now), now) && InWindow(MinuteKey(tenant, now), now)
  {
  }

  /** A key is in its window exactly when a request of its tenant would bump it. */
  lemma KeyOfWindow(k: Key, t: Time)
    ensures InWindow(k, t) <==> k == if k.Daily? then DailyKey(k.tenant, t) else MinuteKey(k.tenant, t)
  {
  }

  // ----- The verdict -----

  datatype Limits = Limits(daily: nat, perMinute: nat)

  datatype Verdict = Admitted | DailyExceeded | RateExceeded

  function Judge(l: Limits, daily: nat, minute: nat): Verdict {
    if l.daily != 0 && daily > l.daily then DailyExceeded
    else if l.perMinute != 0 && minute > l.perMinute then RateExceeded
    else Admitted
  }

  // ----- Requests, one command a step -----

  datatype RequestId = RequestId(tenant: TenantId, number: nat)

  /**
   Each constructor names the command the request issues next; `daily` and `minute` are what its
   increments returned.
   */
  datatype Phase =
    | CountDaily(now: Time)
    | KeepDaily(now: Time, daily: nat)
    | CountMinute(now: Time, daily: nat)
    | KeepMinute(now: Time, daily: nat, minute: nat)
    | Answered(now: Time, daily: nat, minute: nat)

  /** `dailyAt` and `minuteAt` record where in the log a request's increments are; no step reads them. */
  datatype World = World(store: Store<Key>, requests: map<RequestId, Phase>, dailyAt: map<RequestId, nat>, minuteAt: map<RequestId, nat>)

  datatype Event = Begin(r: RequestId) | Go(r: RequestId) | Wait(d: nat)

  function Initial(clock: Time): World {
    World(Empty(clock), map[], map[], map[])
  }

  predicate Enabled(w: World, e: Event) {
    match e
    case Begin(r) => r !in w.requests
    case Go(r) => r in w.requests && !w.requests[r].Answered?
    case Wait(_) => true
  }

  function Put(w: World, r: RequestId, p: Phase): World {
    w.(requests := w.requests[r := p])
  }

  /** The command itself. */
  function Command(s: Store<Key>, tenant: TenantId, p: Phase): Store<Key> {
    match p
    case CountDaily(now) => Incr(s, DailyKey(tenant, now))
    case KeepDaily(now, _) => var k := DailyKey(tenant, now); Expire(s, k, TTL(k))
    case CountMinute(now, _) => Incr(s, MinuteKey(tenant, now))
    case KeepMinute(now, _, _) => var k := MinuteKey(tenant, now); Expire(s, k, TTL(k))
    case Answered(_, _, _) => s
  }

  /** Where the request goes on, with what an INCR returned. */
  function After(s: Store<Key>, tenant: TenantId, p: Phase): Phase {
    match p
    case CountDaily(now) => KeepDaily(now, Get(s, DailyKey(tenant, now)) + 1)
    case KeepDaily(now, d) => CountMinute(now, d)
    case CountMinute(now, d) => KeepMinute(now, d, Get(s, MinuteKey(tenant, now)) + 1)
    case KeepMinute(now, d, m) => Answered(now, d, m)
    case Answered(_, _, _) => p
  }

  function Advance(w: World, r: RequestId): World
    requires r in w.requests
  {
    var p, n := w.requests[r], |w.store.log|;
    World(Command(w.store, r.tenant, p), w.requests[r := After(w.store, r.tenant, p)],
          if p.CountDaily? then w.dailyAt[r := n] else w.dailyAt, if p.CountMinute? then w.minuteAt[r := n] else w.minuteAt)
  }

  function Step(w: World, e: Event): World
    requires Enabled(w, e)
  {
    match e
    case Begin(r) => Put(w, r, CountDaily(w.store.clock))
    case Go(r) => Advance(w, r)
    case Wait(d) => w.(store := Pass(w.store, d))
  }

  predicate Possible(w: World, es: seq<Event>)
    decreases |es|
  {
    es == [] || (Enabled(w, es[0]) && Possible(Step(w, es[0]), es[1..]))
  }

  function Run(w: World, es: seq<Event>): World
    requires Possible(w, es)
    decreases |es|
  {
    if es == [] then w else Run(Step(w, es[0]), es[1..])
  }

  ghost predicate Reachable(w: World) {
    exists clock, es :: Possible(Initial(clock), es) && Run(Initial(clock), es) == w
  }

  // ----- What every step keeps -----

  /** Where a request's increment is in the log, and that nobody else's is there. */
  predicate Logged(log: seq<Increment<Key>>, i: nat, k: Key, ordinal: nat) {
    i < |log| && log[i].key == k && log[i].ordinal == ordinal
  }

  predicate RequestKept(w: World, r: RequestId)
    requires r in w.requests
  {
    var p := w.requests[r];
    && p.now <= w.store.clock
    && (p.CountDaily? <==> r !in w.dailyAt)
    && (!p.CountDaily? ==> Logged(w.store.log, w.dailyAt[r], DailyKey(r.tenant, p.now), p.daily))
    && (p.KeepMinute? || p.Answered? <==> r in w.minuteAt)
    && (p.KeepMinute? || p.Answered? ==> Logged(w.store.log, w.minuteAt[r], MinuteKey(r.tenant, p.now), p.minute))
  }

  predicate Separate(at: map<RequestId, nat>, n: nat) {
    && (forall r :: r in at ==> at[r] < n)
    && forall r, q :: r in at && q in at && r != q ==> at[r] != at[q]
  }

  ghost predicate Inv(w: World) {
    && Kept(w.store, TTL)
    && EntriesInTime(w.store.log)
    && (forall r :: r in w.requests ==> RequestKept(w, r))
    && w.dailyAt.Keys <= w.requests.Keys && w.minuteAt.Keys <= w.requests.Keys
    && Separate(w.dailyAt, |w.store.log|) && Separate(w.minuteAt, |w.store.log|)
  }

  lemma StoreStep(w: World, e: Event)
    requires Inv(w) && Enabled(w, e)
    ensures Kept(Step(w, e).store, TTL)
  {
    match e
    case Begin(_) =>
    case Wait(d) => PassKept(w.store, TTL, d);
    case Go(r) =>
      match w.requests[r]
      case CountDaily(now) => IncrKept(w.store, TTL, DailyKey(r.tenant, now));
      case KeepDaily(now, _) => ExpireKept(w.store, TTL, DailyKey(r.tenant, now));
      case CountMinute(now, _) => IncrKept(w.store, TTL, MinuteKey(r.tenant, now));
      case KeepMinute(now, _, _) => ExpireKept(w.store, TTL, MinuteKey(r.tenant, now));
  }

  /** A step that leaves a request and its marks alone and only extends the log. */
  lemma OtherKept(w: World, w': World, r: RequestId)
    requires r in w.requests && r in w'.requests && w.requests[r] == w'.requests[r] && RequestKept(w, r)
    requires w.store.clock <= w'.store.clock && w.store.log <= w'.store.log
    requires (r in w.dailyAt <==> r in w'.dailyAt) && (r in w.dailyAt ==> w.dailyAt[r] == w'.dailyAt[r])
    requires (r in w.minuteAt <==> r in w'.minuteAt) && (r in w.minuteAt ==> w.minuteAt[r] == w'.minuteAt[r])
    ensures RequestKept(w', r)
  {
  }

  lemma OwnKept(w: World, r: RequestId)
    requires r in w.requests && RequestKept(w, r)
    ensures RequestKept(Advance(w, r), r)
  {
    match w.requests[r]
    case CountDaily(now) =>
    case KeepDaily(now, _) =>
    case CountMinute(now, _) =>
    case KeepMinute(now, _, _) =>
    case Answered(_, _, _) =>
  }

  lemma RequestsStep(w: World, e: Event)
    requires Enabled(w, e) && (forall r :: r in w.requests ==> RequestKept(w, r))
    requires w.dailyAt.Keys <= w.requests.Keys && w.minuteAt.Keys <= w.requests.Keys
    ensures var w' := Step(w, e);
            && (forall r :: r in w'.requests ==> RequestKept(w', r))
            && w'.dailyAt.Keys <= w'.requests.Keys && w'.minuteAt.Keys <= w'.requests.Keys
  {
    var w' := Step(w, e);
    forall r | r in w'.requests ensures RequestKept(w', r) {
      if e.Go? && r == e.r {
        OwnKept(w, r);
      } else if r in w.requests {
        OtherKept(w, w', r);
      }
    }
  }

  lemma SeparateGrows(at: map<RequestId, nat>, n: nat, r: RequestId)
    requires Separate(at, n)
    ensures Separate(at, n + 1) && Separate(at[r := n], n + 1)
  {
  }

  ghost predicate EntriesInTime(log: seq<Increment<Key>>) {
    forall i :: 0 <= i < |log| ==> Start(log[i].key) <= log[i].at
  }

  /** A command adds an entry exactly when it counts, and not before the window of its key begins. */
  lemma CommandEntries(s: Store<Key>, tenant: TenantId, p: Phase)
    requires EntriesInTime(s.log) && p.now <= s.clock
    ensures EntriesInTime(Command(s, tenant, p).log)
    ensures |Command(s, tenant, p).log| == |s.log| + if p.CountDaily? || p.CountMinute? then 1 else 0
  {
    KeysHoldNow(tenant, p.now);
  }

  lemma LogStep(w: World, e: Event)
    requires Inv(w) && Enabled(w, e)
    ensures var w' := Step(w, e);
            EntriesInTime(w'.store.log) && Separate(w'.dailyAt, |w'.store.log|) && Separate(w'.minuteAt, |w'.store.log|)
  {
    if e.Go? {
      assert RequestKept(w, e.r);
      CommandEntries(w.store, e.r.tenant, w.requests[e.r]);
      SeparateGrows(w.dailyAt, |w.store.log|, e.r);
      SeparateGrows(w.minuteAt, |w.store.log|, e.r);
    }
  }

  lemma InvStep(w: World, e: Event)
    requires Inv(w) && Enabled(w, e)
    ensures Inv(Step(w, e))
  {
    StoreStep(w, e);
    RequestsStep(w, e);
    LogStep(w, e);
  }

  lemma {:induction false} InvRun(w: World, es: seq<Event>)
    requires Inv(w) && Possible(w, es)
    ensures Inv(Run(w, es))
    decreases |es|
  {
    if es != [] {
      InvStep(w, es[0]);
      InvRun(Step(w, es[0]), es[1..]);
    }
  }

  lemma ReachableInv(w: World)
    requires Reachable(w)
    ensures Inv(w)
  {
    var clock, es :| Possible(Initial(clock), es) && Run(Initial(clock), es) == w;
    EmptyKept(clock, TTL);
    InvRun(Initial(clock), es);
  }

  // ----- Main results -----

  /** The log position took effect before its key's time to live could have passed. */
  predicate Prompt(log: seq<Increment<Key>>, i: nat)
    requires i < |log|
  {
    log[i].at < Start(log[i].key) + TTL(log[i].key)
  }

  lemma PromptIsWithin(w: World, i: nat)
    requires Inv(w) && i < |w.store.log| && Prompt(w.store.log, i)
    ensures var k := w.store.log[i].key; Within(w.store.log, k, TTL(k), w.store.log[i].at)
  {
    FirstStays(w.store.log, i, w.store.log[i].key);
    FirstIsAnEntry(w.store.log, w.store.log[i].key);
  }

  /** Two requests that bump the same counter promptly get different ordinals. */
  lemma DistinctOrdinals(w: World, i: nat, j: nat)
    requires Reachable(w) && i < |w.store.log| && j < |w.store.log| && i != j
    requires w.store.log[i].key == w.store.log[j].key && Prompt(w.store.log, i) && Prompt(w.store.log, j)
    ensures w.store.log[i].ordinal != w.store.log[j].ordinal
    ensures w.store.log[i].ordinal > 0
  {
    ReachableInv(w);
    PromptIsWithin(w, i);
    PromptIsWithin(w, j);
    OrdinalsRise(w.store, TTL, w.store.log[i].key, if i < j then i else j, if i < j then j else i);
  }

  /** The ordinal a prompt request got is its place among all the increments of its key. */
  lemma PromptOrdinalIsPlace(w: World, i: nat)
    requires Reachable(w) && i < |w.store.log| && Prompt(w.store.log, i)
    ensures w.store.log[i].ordinal == Count(w.store.log[..i + 1], w.store.log[i].key) > 0
  {
    ReachableInv(w);
    PromptIsWithin(w, i);
    OrdinalIsPlace(w.store, TTL, i);
  }

  /**
   A counter never expires in its own window, and reads as the number of requests counted in it; this
   is what `usage` reports.
   */
  lemma WindowCountsAreExact(w: World, k: Key)
    requires Reachable(w) && InWindow(k, w.store.clock)
    ensures Get(w.store, k) == Count(w.store.log, k)
    ensures Count(w.store.log, k) > 0 ==> Live(w.store, k)
  {
    ReachableInv(w);
    CountedInWindow(w.store, k);
  }

  /** A request was let through, and its bump of the day's or the minute's counter was prompt. */
  predicate LetThrough(w: World, l: Limits, r: RequestId, k: Key)
    requires Inv(w)
  {
    && r in w.requests && w.requests[r].Answered?
    && Judge(l, w.requests[r].daily, w.requests[r].minute) == Admitted
    && var p := w.requests[r];
       assert RequestKept(w, r);
       match k
       case Daily(_, _) => k == DailyKey(r.tenant, p.now) && Prompt(w.store.log, w.dailyAt[r])
       case PerMinute(_, _) => k == MinuteKey(r.tenant, p.now) && Prompt(w.store.log, w.minuteAt[r])
  }

  function LimitOn(l: Limits, k: Key): nat {
    match k
    case Daily(_, _) => l.daily
    case PerMinute(_, _) => l.perMinute
  }

  function OrdinalOf(w: World, r: RequestId, k: Key): nat
    requires r in w.requests && w.requests[r].Answered?
  {
    match k
    case Daily(_, _) => w.requests[r].daily
    case PerMinute(_, _) => w.requests[r].minute
  }

  lemma OrdinalsSeparate(w: World, l: Limits, k: Key, r: RequestId, q: RequestId)
    requires Reachable(w) && Inv(w) && LetThrough(w, l, r, k) && LetThrough(w, l, q, k) && r != q
    ensures OrdinalOf(w, r, k) != OrdinalOf(w, q, k)
  {
    assert RequestKept(w, r) && RequestKept(w, q);
    match k
    case Daily(_, _) => DistinctOrdinals(w, w.dailyAt[r], w.dailyAt[q]);
    case PerMinute(_, _) => DistinctOrdinals(w, w.minuteAt[r], w.minuteAt[q]);
  }

  lemma OrdinalInLimit(w: World, l: Limits, k: Key, r: RequestId)
    requires Reachable(w) && Inv(w) && LetThrough(w, l, r, k) && LimitOn(l, k) > 0
    ensures 1 <= OrdinalOf(w, r, k) <= LimitOn(l, k)
  {
    assert RequestKept(w, r);
    PromptOrdinalIsPlace(w, if k.Daily? then w.dailyAt[r] else w.minuteAt[r]);
  }

  /** With ordinals all different and from 1 to n, there are at most n requests. */
  lemma {:induction false} AtMost(w: World, k: Key, rs: set<RequestId>, n: nat)
    requires forall r :: r in rs ==> r in w.requests && w.requests[r].Answered? && 1 <= OrdinalOf(w, r, k) <= n
    requires forall r, q :: r in rs && q in rs && r != q ==> OrdinalOf(w, r, k) != OrdinalOf(w, q, k)
    ensures |rs| <= n
    decreases n
  {
    if n == 0 {
      assert rs == {};
    } else if r :| r in rs && OrdinalOf(w, r, k) == n {
      AtMost(w, k, rs - {r}, n - 1);
    } else {
      AtMost(w, k, rs, n - 1);
    }
  }

  /** No run lets through more requests of one tenant in one window than the limit, whatever interleaves. */
  lemma NeverOverLimit(w: World, l: Limits, k: Key, rs: set<RequestId>)
    requires Reachable(w) && Inv(w) && LimitOn(l, k) > 0
    requires forall r :: r in rs ==> LetThrough(w, l, r, k)
    ensures |rs| <= LimitOn(l, k)
  {
    forall r | r in rs ensures 1 <= OrdinalOf(w, r, k) <= LimitOn(l, k) {
      OrdinalInLimit(w, l, k, r);
    }
    forall r, q | r in rs && q in rs && r != q ensures OrdinalOf(w, r, k) != OrdinalOf(w, q, k) {
      OrdinalsSeparate(w, l, k, r, q);
    }
    AtMost(w, k, rs, LimitOn(l, k));
  }

  // ----- Tenants -----

  ghost predicate SameCounters(tenant: TenantId, s: Store<Key>, t: Store<Key>) {
    && s.clock == t.clock
    && (forall k: Key :: k.tenant == tenant ==> (k in s.counters <==> k in t.counters))
    && (forall k: Key :: k.tenant == tenant && k in s.counters ==> s.counters[k] == t.counters[k])
  }

  ghost predicate SameRequests(tenant: TenantId, p: map<RequestId, Phase>, q: map<RequestId, Phase>) {
    && (forall r: RequestId :: r.tenant == tenant ==> (r in p <==> r in q))
    && (forall r: RequestId :: r.tenant == tenant && r in p ==> p[r] == q[r])
  }

  /** Two worlds look the same to a tenant: its counters, its requests and the clock. */
  ghost predicate SameTo(tenant: TenantId, w: World, v: World) {
    SameCounters(tenant, w.store, v.store) && SameRequests(tenant, w.requests, v.requests)
  }

  predicate Concerns(tenant: TenantId, e: Event) {
    e.Wait? || e.r.tenant == tenant
  }

  function Own(tenant: TenantId, es: seq<Event>): seq<Event> {
    if es == [] then [] else (if Concerns(tenant, es[0]) then [es[0]] else []) + Own(tenant, es[1..])
  }

  lemma SameIncr(tenant: TenantId, s: Store<Key>, t: Store<Key>, k: Key)
    requires SameCounters(tenant, s, t) && k.tenant == tenant
    ensures Get(s, k) == Get(t, k)
    ensures SameCounters(tenant, Incr(s, k), Incr(t, k))
    ensures SameCounters(tenant, Expire(s, k, TTL(k)), Expire(t, k, TTL(k)))
  {
  }

  lemma SameCommand(tenant: TenantId, s: Store<Key>, t: Store<Key>, p: Phase)
    requires SameCounters(tenant, s, t)
    ensures SameCounters(tenant, Command(s, tenant, p), Command(t, tenant, p))
    ensures After(s, tenant, p) == After(t, tenant, p)
  {
    SameIncr(tenant, s, t, DailyKey(tenant, p.now));
    SameIncr(tenant, s, t, MinuteKey(tenant, p.now));
  }

  lemma SamePut(tenant: TenantId, p: map<RequestId, Phase>, q: map<RequestId, Phase>, r: RequestId, x: Phase)
    requires SameRequests(tenant, p, q)
    ensures SameRequests(tenant, p[r := x], q[r := x])
  {
  }

  lemma OwnStep(tenant: TenantId, w: World, v: World, e: Event)
    requires SameTo(tenant, w, v) && Enabled(w, e) && Concerns(tenant, e)
    ensures Enabled(v, e) && SameTo(tenant, Step(w, e), Step(v, e))
  {
    match e
    case Begin(r) => SamePut(tenant, w.requests, v.requests, r, CountDaily(w.store.clock));
    case Go(r) =>
      SameCommand(tenant, w.store, v.store, w.requests[r]);
      SamePut(tenant, w.requests, v.requests, r, After(w.store, tenant, w.requests[r]));
    case Wait(_) =>
  }

  lemma OtherStep(tenant: TenantId, w: World, v: World, e: Event)
    requires SameTo(tenant, w, v) && Enabled(w, e) && !Concerns(tenant, e)
    ensures SameTo(tenant, Step(w, e), v)
  {
  }

  /** What a tenant sees of a run is what it would see of its own requests alone. */
  lemma {:induction false} TenantsIndependent(tenant: TenantId, w: World, v: World, es: seq<Event>)
    requires SameTo(tenant, w, v) && Possible(w, es)
    ensures Possible(v, Own(tenant, es)) && SameTo(tenant, Run(w, es), Run(v, Own(tenant, es)))
    decreases |es|
  {
    if es != [] {
      var e := es[0];
      if Concerns(tenant, e) {
        OwnStep(tenant, w, v, e);
        TenantsIndependent(tenant, Step(w, e), Step(v, e), es[1..]);
        assert Own(tenant, es)[1..] == Own(tenant, es[1..]);
      } else {
        OtherStep(tenant, w, v, e);
        TenantsIndependent(tenant, Step(w, e), v, es[1..]);
        assert Own(tenant, es) == Own(tenant, es[1..]);
      }
    }
  }

  // ----- How late an increment may be -----

  lemma {:induction false} PossibleMore(w: World, es: seq<Event>, e: Event)
    requires Possible(w, es) && Enabled(Run(w, es), e)
    ensures Possible(w, es + [e]) && Run(w, es + [e]) == Step(Run(w, es), e)
    decreases |es|
  {
    if es == [] {
      assert [] + [e] == [e];
    } else {
      assert (es + [e])[1..] == es[1..] + [e];
      PossibleMore(Step(w, es[0]), es[1..], e);
    }
  }

  lemma ReachableStep(w: World, e: Event)
    requires Reachable(w) && Enabled(w, e)
    ensures Reachable(Step(w, e))
  {
    var clock, es :| Possible(Initial(clock), es) && Run(Initial(clock), es) == w;
    PossibleMore(Initial(clock), es, e);
  }

  lemma ReachableInitial(clock: Time)
    ensures Reachable(Initial(clock))
  {
    assert Possible(Initial(clock), []) && Run(Initial(clock), []) == Initial(clock);
  }

  /** Every increment of k took effect before this long after the start of its window. */
  ghost predicate AllBefore(log: seq<Increment<Key>>, k: Key, horizon: Time) {
    forall i | 0 <= i < |log| && log[i].key == k :: log[i].at < Start(k) + horizon
  }

  ghost predicate AllDistinct(log: seq<Increment<Key>>, k: Key) {
    forall i, j | 0 <= i < j < |log| && log[i].key == k && log[j].key == k :: log[i].ordinal != log[j].ordinal
  }

  ghost predicate DistinctUpTo(k: Key, horizon: Time) {
    forall w: World | Reachable(w) && AllBefore(w.store.log, k, horizon) :: AllDistinct(w.store.log, k)
  }

  /** What is left of a counter once its time to live has passed: an increment starts it again. */
  ghost predicate RunsOut(w: World, k: Key) {
    && Reachable(w) && w.store.clock == Start(k)
    && k in w.store.counters && w.store.counters[k].expiry == Some(Start(k) + TTL(k))
    && (exists i :: 0 <= i < |w.store.log| && w.store.log[i].key == k && w.store.log[i].ordinal == 1)
    && (forall i | 0 <= i < |w.store.log| && w.store.log[i].key == k :: w.store.log[i].at == Start(k))
  }

  /** A request that began in the window of k and issues its INCR of k when the time to live has passed. */
  ghost predicate Pending(w: World, k: Key, q: RequestId) {
    && q in w.requests && q.tenant == k.tenant
    && match k
       case Daily(_, _) => w.requests[q] == CountDaily(Start(k))
       case PerMinute(_, _) => w.requests[q].CountMinute? && w.requests[q].now == Start(k)
  }

  lemma StartHasKey(k: Key)
    ensures k == if k.Daily? then DailyKey(k.tenant, Start(k)) else MinuteKey(k.tenant, Start(k))
    ensures TTL(k) == 2 * Length(k) > 0
  {
  }

  /** The late increment returns the first ordinal a second time. */
  lemma LateRepeats(w: World, k: Key, q: RequestId)
    requires RunsOut(w, k) && Pending(w, k, q)
    ensures var w' := Step(Step(w, Wait(TTL(k))), Go(q));
            Reachable(w') && AllBefore(w'.store.log, k, TTL(k) + 1) && !AllDistinct(w'.store.log, k)
  {
    StartHasKey(k);
    var w1 := Step(w, Wait(TTL(k)));
    ReachableStep(w, Wait(TTL(k)));
    ReachableStep(w1, Go(q));
    var log := w.store.log;
    assert Step(w1, Go(q)).store.log == log + [Increment(k, Start(k) + TTL(k), 1)];
    var i :| 0 <= i < |log| && log[i].key == k && log[i].ordinal == 1;
    var log' := Step(w1, Go(q)).store.log;
    assert log'[i] == log[i] && log'[|log|] == Increment(k, Start(k) + TTL(k), 1);
    assert log'[i].ordinal == log'[|log|].ordinal;
  }

  /** Two requests of a tenant have begun at the start of k's window, before anything else. */
  ghost predicate TwoBegun(w: World, k: Key, r: RequestId, q: RequestId) {
    && Reachable(w) && r != q && r.tenant == k.tenant && q.tenant == k.tenant
    && w.store == Empty<Key>(Start(k)) && r in w.requests && q in w.requests
    && w.requests[r] == CountDaily(Start(k)) && w.requests[q] == CountDaily(Start(k))
  }

  lemma BeginTwo(k: Key) returns (w: World, r: RequestId, q: RequestId)
    ensures TwoBegun(w, k, r, q)
  {
    r, q := RequestId(k.tenant, 0), RequestId(k.tenant, 1);
    var w0 := Initial(Start(k));
    ReachableInitial(Start(k));
    ReachableStep(w0, Begin(r));
    ReachableStep(Step(w0, Begin(r)), Begin(q));
    w := Step(Step(w0, Begin(r)), Begin(q));
  }

  lemma DailyRunsOut(w: World, k: Key, r: RequestId, q: RequestId) returns (w': World)
    requires TwoBegun(w, k, r, q) && k.Daily?
    ensures RunsOut(w', k) && Pending(w', k, q)
  {
    StartHasKey(k);
    var w1 := Step(w, Go(r));
    ReachableStep(w, Go(r));
    ReachableStep(w1, Go(r));
    assert w1.store.log == [Increment(k, Start(k), 1)];
    w' := Step(w1, Go(r));
    assert w'.store.log[0].key == k && w'.store.log[0].ordinal == 1;
  }

  /** Both requests have bumped the day's counter; the one of the minute is untouched. */
  ghost predicate DayDone(w: World, k: Key, r: RequestId, q: RequestId) {
    && Reachable(w) && r != q && r.tenant == k.tenant && q.tenant == k.tenant && w.store.clock == Start(k)
    && k !in w.store.counters && (forall i | 0 <= i < |w.store.log| :: w.store.log[i].key != k)
    && r in w.requests && q in w.requests
    && w.requests[r].CountMinute? && w.requests[r].now == Start(k)
    && w.requests[q].CountMinute? && w.requests[q].now == Start(k)
  }

  lemma BumpDay(w: World, k: Key, r: RequestId, q: RequestId) returns (w': World)
    requires TwoBegun(w, k, r, q) && k.PerMinute?
    ensures DayDone(w', k, r, q)
  {
    var w1 := Step(w, Go(r));
    var w2 := Step(w1, Go(r));
    var w3 := Step(w2, Go(q));
    ReachableStep(w, Go(r));
    ReachableStep(w1, Go(r));
    ReachableStep(w2, Go(q));
    ReachableStep(w3, Go(q));
    w' := Step(w3, Go(q));
  }

  lemma MinuteRunsOut(w: World, k: Key, r: RequestId, q: RequestId) returns (w': World)
    requires DayDone(w, k, r, q) && k.PerMinute?
    ensures RunsOut(w', k) && Pending(w', k, q)
  {
    StartHasKey(k);
    var w1 := Step(w, Go(r));
    ReachableStep(w, Go(r));
    ReachableStep(w1, Go(r));
    assert w1.store.log == w.store.log + [Increment(k, Start(k), 1)];
    w' := Step(w1, Go(r));
    assert w'.store.log[|w.store.log|].key == k && w'.store.log[|w.store.log|].ordinal == 1;
  }

  lemma LaterRepeats(k: Key) returns (w: World)
    ensures Reachable(w) && AllBefore(w.store.log, k, TTL(k) + 1) && !AllDistinct(w.store.log, k)
  {
    var w0, r, q := BeginTwo(k);
    if k.Daily? {
      var w1 := DailyRunsOut(w0, k, r, q);
      LateRepeats(w1, k, q);
      w := Step(Step(w1, Wait(TTL(k))), Go(q));
    } else {
      var w1 := BumpDay(w0, k, r, q);
      var w2 := MinuteRunsOut(w1, k, r, q);
      LateRepeats(w2, k, q);
      w := Step(Step(w2, Wait(TTL(k))), Go(q));
    }
  }

  /**
   The time to live is the exact bound, of the day's counters and of the minute's: the ordinals of a key are
   distinct in every run whose increments of it all take effect within a horizon from the start of its window, if
   and only if the horizon is at most the time to live.
   */
  lemma DistinctExactly(k: Key, horizon: Time)
    ensures DistinctUpTo(k, horizon) <==> horizon <= TTL(k)
  {
    if horizon <= TTL(k) {
      forall w: World, i, j | Reachable(w) && AllBefore(w.store.log, k, horizon)
                              && 0 <= i < j < |w.store.log| && w.store.log[i].key == k && w.store.log[j].key == k
        ensures w.store.log[i].ordinal != w.store.log[j].ordinal
      {
        DistinctOrdinals(w, i, j);
      }
    } else {
      var w := LaterRepeats(k);
      assert AllBefore(w.store.log, k, horizon);
    }
  }

  // ----- The repository, one request at a time -----

  function Bumped(s: Store<Key>, k: Key): Store<Key> {
    Expire(Incr(s, k), k, TTL(k))
  }

  lemma BumpKept(s: Store<Key>, k: Key)
    requires Kept(s, TTL) && EntriesInTime(s.log) && InWindow(k, s.clock)
    ensures var t := Bumped(s, k);
            Kept(t, TTL) && EntriesInTime(t.log) && Get(Incr(s, k), k) == Get(t, k) == Count(t.log, k)
  {
    IncrKept(s, TTL, k);
    ExpireKept(Incr(s, k), TTL, k);
    CountedInWindow(Bumped(s, k), k);
  }

  lemma CountedInWindow(s: Store<Key>, k: Key)
    requires Kept(s, TTL) && EntriesInTime(s.log) && InWindow(k, s.clock)
    ensures Get(s, k) == Count(s.log, k)
    ensures Count(s.log, k) > 0 ==> Live(s, k)
  {
    if First(s.log, k).Some? { FirstIsAnEntry(s.log, k); }
    CounterIsLog(s, TTL, k);
  }

  class QuotaRepository {
    var store: Store<Key>

    ghost predicate Valid()
      reads this
    {
      Kept(store, TTL) && EntriesInTime(store.log)
    }

    constructor (clock: Time)
      ensures Valid() && store == Empty<Key>(clock)
    {
      store := Empty(clock);
      new;
      EmptyKept(clock, TTL);
    }

    method Bump(k: Key) returns (n: nat)
      requires Valid() && InWindow(k, store.clock)
      modifies this
      ensures Valid() && store.clock == old(store.clock)
      ensures store.log == old(store.log) + [Increment(k, store.clock, n)]
      ensures n == Count(store.log, k) == Get(store, k)
      ensures forall other :: other != k ==> Get(store, other) == old(Get(store, other))
    {
      BumpKept(store, k);
      store := Incr(store, k);
      n := Get(store, k);
      store := Expire(store, k, TTL(k));
    }

    method Hit(tenant: TenantId) returns (daily: nat, minute: nat)
      requires Valid()
      modifies this
      ensures Valid() && store.clock == old(store.clock)
      ensures var now := store.clock;
              && store.log == old(store.log) + [Increment(DailyKey(tenant, now), now, daily), Increment(MinuteKey(tenant, now), now, minute)]
              && daily == Count(old(store.log), DailyKey(tenant, now)) + 1
              && minute == Count(old(store.log), MinuteKey(tenant, now)) + 1
              && forall k: Key :: k.tenant != tenant ==> Get(store, k) == old(Get(store, k))
    {
      var now := store.clock;
      KeysHoldNow(tenant, now);
      ghost var before := store.log;
      daily := Bump(DailyKey(tenant, now));
      Snoc(before, Increment(DailyKey(tenant, now), now, daily), DailyKey(tenant, now));
      Snoc(before, Increment(DailyKey(tenant, now), now, daily), MinuteKey(tenant, now));
      ghost var middle := store.log;
      minute := Bump(MinuteKey(tenant, now));
      Snoc(middle, Increment(MinuteKey(tenant, now), now, minute), MinuteKey(tenant, now));
    }

    method Usage(tenant: TenantId) returns (n: nat)
      requires Valid()
      ensures n == Count(store.log, DailyKey(tenant, store.clock))
    {
      var k := DailyKey(tenant, store.clock);
      n := Get(store, k);
      KeysHoldNow(tenant, store.clock);
      CountedInWindow(store, k);
    }
  }

  /** A limit of 0 is no limit. */
  predicate Room(limit: nat, used: nat) {
    limit == 0 || used < limit
  }

  /**
   A request is admitted exactly while fewer requests than each limit that is set came before it in its
   windows; every request is counted, admitted or not.
   */
  method EnforceQuota(repository: QuotaRepository, tenant: TenantId, l: Limits) returns (v: Verdict)
    requires repository.Valid()
    modifies repository
    ensures repository.Valid() && |repository.store.log| == |old(repository.store.log)| + 2
    ensures var log, now := old(repository.store.log), repository.store.clock;
            && v == Judge(l, Count(log, DailyKey(tenant, now)) + 1, Count(log, MinuteKey(tenant, now)) + 1)
            && (v == Admitted <==> Room(l.daily, Count(log, DailyKey(tenant, now))) && Room(l.perMinute, Count(log, MinuteKey(tenant, now))))
            && (v == DailyExceeded <==> !Room(l.daily, Count(log, DailyKey(tenant, now))))
  {
    var daily, minute := repository.Hit(tenant);
    if l.daily != 0 && daily > l.daily { return DailyExceeded; }
    if l.perMinute != 0 && minute > l.perMinute { return RateExceeded; }
    return Admitted;
  }
}
