/**
 Runs of the command-level protocol, each from the initial state, that show what interference
 and ill-timed stops can do to a job.
 */
module Interference {
  import opened Jobs
  import opened QueueState
  import opened Uploads
  import opened CommandSteps
  import opened CommandRuns
  import opened Places
  import opened Claims

  // ----- Building runs -----

  /** Runs of one kind: those in which every removal hits, those without recovery sweeps, or those with both. */
  datatype Kind = AllHit | NoSweep | HitNoSweep

  ghost predicate Proper(s: State, e: Event, kind: Kind) {
    && (kind.NoSweep? || (e.Advance? ==> Hits(s.redis, At(s, e.a))))
    && (kind.AllHit? || (!e.Sweep? && (e.Advance? ==> !At(s, e.a).Sweeping?)))
  }

  ghost predicate AllProper(c: Config, s: State, es: seq<Event>, kind: Kind)
    decreases es
  {
    es == [] || (Proper(s, es[0], kind) && AllProper(c, Next(c, s, es[0]), es[1..], kind))
  }

  /** Some run of that kind goes from s to t and claims id n times. */
  ghost predicate Leads(c: Config, s: State, t: State, id: JobId, n: nat, kind: Kind) {
    exists es :: Valid(c, s, es) && Run(c, s, es) == t && ClaimCount(c, s, es, id) == n && AllProper(c, s, es, kind)
  }

  lemma Stay(c: Config, s: State, id: JobId, kind: Kind)
    ensures Leads(c, s, s, id, 0, kind)
  {
    assert Valid(c, s, []) && Run(c, s, []) == s && ClaimCount(c, s, [], id) == 0 && AllProper(c, s, [], kind);
  }

  lemma {:induction false} RunOn(c: Config, s: State, es: seq<Event>, fs: seq<Event>, id: JobId, kind: Kind)
    requires Valid(c, s, es) && Valid(c, Run(c, s, es), fs)
    requires AllProper(c, s, es, kind) && AllProper(c, Run(c, s, es), fs, kind)
    ensures Valid(c, s, es + fs) && Run(c, s, es + fs) == Run(c, Run(c, s, es), fs) && AllProper(c, s, es + fs, kind)
    ensures ClaimCount(c, s, es + fs, id) == ClaimCount(c, s, es, id) + ClaimCount(c, Run(c, s, es), fs, id)
    decreases es
  {
    if es == [] {
      assert es + fs == fs;
    } else {
      assert (es + fs)[1..] == es[1..] + fs;
      RunOn(c, Next(c, s, es[0]), es[1..], fs, id, kind);
    }
  }

  lemma Then(c: Config, s: State, t: State, u: State, id: JobId, m: nat, n: nat, kind: Kind)
    requires Leads(c, s, t, id, m, kind) && Leads(c, t, u, id, n, kind)
    ensures Leads(c, s, u, id, m + n, kind)
  {
    var es :| Valid(c, s, es) && Run(c, s, es) == t && ClaimCount(c, s, es, id) == m && AllProper(c, s, es, kind);
    var fs :| Valid(c, t, fs) && Run(c, t, fs) == u && ClaimCount(c, t, fs, id) == n && AllProper(c, t, fs, kind);
    RunOn(c, s, es, fs, id, kind);
  }

  lemma Step(c: Config, s: State, e: Event, id: JobId, kind: Kind)
    requires Enabled(c, s, e) && Proper(s, e, kind)
    ensures Leads(c, s, Next(c, s, e), id, One(ClaimsJob(s, e, id)), kind)
  {
    var t := Next(c, s, e);
    assert [e][1..] == [];
    assert Valid(c, t, []) && Run(c, t, []) == t && ClaimCount(c, t, [], id) == 0 && AllProper(c, t, [], kind);
    assert Valid(c, s, [e]) && Run(c, s, [e]) == t && ClaimCount(c, s, [e], id) == One(ClaimsJob(s, e, id)) && AllProper(c, s, [e], kind);
  }

  /** One more command of a, which takes it to x and the queue to r. */
  lemma More(c: Config, s: State, t: State, a: ActorId, r: Redis, x: Actor, id: JobId, n: nat, kind: Kind)
    requires Leads(c, s, t, id, n, kind)
    requires !At(t, a).Idle? && Proper(t, Advance(a), kind) && Command(c, t, a) == With(t, a, r, x)
    ensures Leads(c, s, With(t, a, r, x), id, n + One(ClaimsJob(t, Advance(a), id)), kind)
  {
    Step(c, t, Advance(a), id, kind);
    Then(c, s, t, With(t, a, r, x), id, n, One(ClaimsJob(t, Advance(a), id)), kind);
  }

  // ----- Parts of runs -----

  lemma SaveLeads(c: Config, s: State, a: ActorId, j: Job, after: After, id: JobId, kind: Kind)
    requires At(s, a) == Saving(j, after) && !after.ThenAck?
    ensures Leads(c, s, With(s, a, Save(s.redis, j), Continue(j, after)), id, 0, kind)
  {
    var r1 := SetJob(s.redis, j);
    Stay(c, s, id, kind);
    More(c, s, s, a, r1, Indexing(j, after), id, 0, kind);
    var s1 := With(s, a, r1, Indexing(j, after));
    WithWith(s, a, r1, Indexing(j, after), SetIndex(r1, j), Continue(j, after));
    More(c, s, s1, a, SetIndex(r1, j), Continue(j, after), id, 0, kind);
  }

  function Claimed(r: Redis, id: JobId, now: Time): Redis
    requires r.pending != []
  {
    r.(pending := r.pending[1..], processing := r.processing[id := now])
  }

  /** LPOP and GET. */
  lemma FetchLeads(c: Config, s: State, a: ActorId, id: JobId, kind: Kind)
    requires At(s, a) == Promoting([]) && s.redis.pending != [] && s.redis.pending[0] == id && id in s.redis.jobs
    ensures Leads(c, s, With(s, a, s.redis.(pending := s.redis.pending[1..]), Claiming(s.redis.jobs[id])), id, 0, kind)
  {
    var j := s.redis.jobs[id];
    var r1 := s.redis.(pending := s.redis.pending[1..]);
    Stay(c, s, id, kind);
    More(c, s, s, a, r1, Fetching(id), id, 0, kind);
    var s1 := With(s, a, r1, Fetching(id));
    WithWith(s, a, r1, Fetching(id), r1, Claiming(j));
    More(c, s, s1, a, r1, Claiming(j), id, 0, kind);
  }

  /** LPOP, GET and HSET. */
  lemma ClaimLeads(c: Config, s: State, a: ActorId, id: JobId, kind: Kind)
    requires At(s, a) == Promoting([]) && s.redis.pending != [] && s.redis.pending[0] == id
    requires id in s.redis.jobs && s.redis.jobs[id].id == id
    ensures Leads(c, s, With(s, a, Claimed(s.redis, id, s.clock), Saving(Started(s.redis.jobs[id]), ThenValidate)), id, 1, kind)
  {
    var j, r1 := s.redis.jobs[id], s.redis.(pending := s.redis.pending[1..]);
    FetchLeads(c, s, a, id, kind);
    var s1 := With(s, a, r1, Claiming(j));
    WithWith(s, a, r1, Claiming(j), Claimed(s.redis, id, s.clock), Saving(Started(j), ThenValidate));
    More(c, s, s1, a, Claimed(s.redis, id, s.clock), Saving(Started(j), ThenValidate), id, 0, kind);
  }

  /** ZREM and RPUSH of one id, whether or not ZREM finds it. */
  lemma PromoteLeads(c: Config, s: State, a: ActorId, id: JobId, kind: Kind)
    requires At(s, a) == Promoting([id]) && (!kind.NoSweep? ==> id in s.redis.delayed)
    ensures Leads(c, s, With(s, a, PushPending(DropDelayed(s.redis, id), id), Promoting([])), id, 0, kind)
  {
    var r1 := DropDelayed(s.redis, id);
    Stay(c, s, id, kind);
    assert [id][1..] == [];
    More(c, s, s, a, r1, PromotePush(id, []), id, 0, kind);
    var s1 := With(s, a, r1, PromotePush(id, []));
    WithWith(s, a, r1, PromotePush(id, []), PushPending(r1, id), Promoting([]));
    More(c, s, s1, a, PushPending(r1, id), Promoting([]), id, 0, kind);
  }

  /** Where `retry` stands after its first three commands. */
  function PlaceNext(c: Config, j: Job, now: Time): After {
    if Exhausted(j) then ThenBury([]) else ThenDelay(now + Backoff(c.base, j.retryCount + 1), [])
  }

  lemma ReleaseLeads(c: Config, s: State, a: ActorId, j: Job, error: string, id: JobId, kind: Kind)
    requires At(s, a) == Releasing(j, error, []) && (!kind.NoSweep? ==> j.id in s.redis.processing)
    ensures var j' := Retried(j, error);
            Leads(c, s, With(s, a, Save(DropProcessing(s.redis, j.id), j'), Continue(j', PlaceNext(c, j, s.clock))), id, 0, kind)
  {
    var j', after := Retried(j, error), PlaceNext(c, j, s.clock);
    var r1 := DropProcessing(s.redis, j.id);
    Stay(c, s, id, kind);
    More(c, s, s, a, r1, Saving(j', after), id, 0, kind);
    var s1 := With(s, a, r1, Saving(j', after));
    SaveLeads(c, s1, a, j', after, id, kind);
    WithWith(s, a, r1, Saving(j', after), Save(r1, j'), Continue(j', after));
    Then(c, s, s1, With(s, a, Save(r1, j'), Continue(j', after)), id, 0, 0, kind);
  }

  /** All of `retry`. */
  lemma RetryLeads(c: Config, s: State, a: ActorId, j: Job, error: string, id: JobId, kind: Kind)
    requires At(s, a) == Releasing(j, error, []) && (!kind.NoSweep? ==> j.id in s.redis.processing)
    ensures Leads(c, s, With(s, a, Retry(s.redis, j, error, c.base, s.clock), Idle), id, 0, kind)
  {
    var j', after := Retried(j, error), PlaceNext(c, j, s.clock);
    var r, r' := Save(DropProcessing(s.redis, j.id), j'), Retry(s.redis, j, error, c.base, s.clock);
    ReleaseLeads(c, s, a, j, error, id, kind);
    RetryPlaced(c, With(s, a, r, Continue(j', after)), a, s.redis, j, error, [], after);
    WithWith(s, a, r, Continue(j', after), r', Idle);
    More(c, s, With(s, a, r, Continue(j', after)), a, r', Idle, id, 0, kind);
  }

  // ----- The states of a system with one job -----

  ghost predicate OneJob(s: State, j: Job, retries: nat) {
    && s.clock >= 0.0 && s.issued == map[j.id := j] && s.redis.jobs.Keys == {j.id}
    && s.redis.jobs[j.id].SameWork(j) && s.redis.jobs[j.id].retryCount == retries
    && (retries == 0 ==> s.redis.jobs[j.id].history == [])
  }

  ghost predicate AllIdleBut(s: State, w: ActorId) {
    forall a :: a != w ==> At(s, a) == Idle
  }

  lemma OthersWith(s: State, a: ActorId, r: Redis, x: Actor)
    ensures forall b | b != a :: At(With(s, a, r, x), b) == At(s, b)
  {
  }

  lemma StillIdle(s: State, w: ActorId, r: Redis, x: Actor)
    requires AllIdleBut(s, w)
    ensures AllIdleBut(With(s, w, r, x), w)
  {
    OthersWith(s, w, r, x);
  }

  ghost predicate Waiting(s: State, j: Job, retries: nat) {
    && OneJob(s, j, retries) && (forall a :: At(s, a) == Idle)
    && s.redis.pending == [j.id] && s.redis.processing == map[] && s.redis.delayed == map[]
  }

  /** The worker has saved its claim and is about to save its first report. */
  ghost predicate Held(s: State, j: Job, retries: nat, w: ActorId) {
    && OneJob(s, j, retries) && AllIdleBut(s, w)
    && s.redis.pending == [] && s.redis.delayed == map[]
    && s.redis.processing.Keys == {j.id} && s.redis.processing[j.id] <= s.clock
    && At(s, w).Saving? && At(s, w).after == ThenProcess
    && At(s, w).job.SameWork(j) && At(s, w).job.retryCount == retries
    && (retries == 0 ==> At(s, w).job.history == [])
  }

  ghost predicate Due(s: State, j: Job, retries: nat) {
    && OneJob(s, j, retries) && (forall a :: At(s, a) == Idle)
    && s.redis.pending == [] && s.redis.processing == map[]
    && s.redis.delayed.Keys == {j.id} && 0.0 <= s.redis.delayed[j.id] <= s.clock
  }

  lemma DueSingle(delayed: map<JobId, Time>, id: JobId, now: Time)
    requires delayed.Keys == {id} && 0.0 <= delayed[id] <= now
    ensures DueList(delayed, now) == [id]
  {
    assert DueSet(delayed, now) == {id};
    assert ListsInOrder(delayed, {id}, [id]);
    OrderUnique(delayed, {id}, DueList(delayed, now), [id]);
  }

  lemma DueNothing(now: Time)
    ensures DueList(map[], now) == []
  {
    EmptyIffNothing(map[], DueSet(map[], now), DueList(map[], now));
  }

  /** The system once its one job has been submitted. */
  function Submitted(store: Store, j: Job): State {
    State(Enqueue(EMPTY, j), store, 0.0, map[0 := Idle], map[j.id := j], {j.id}, {}, {})
  }

  lemma SubmittedWaits(store: Store, j: Job)
    requires Jobs.Fresh(j)
    ensures Waiting(Submitted(store, j), j, 0)
  {
  }

  lemma SubmitLeads(c: Config, store: Store, j: Job, kind: Kind)
    requires Jobs.Fresh(j) && j.productId !in store.images && j.productId !in store.texts
    ensures Leads(c, Initial(store), Submitted(store, j), j.id, 0, kind)
  {
    var s0 := Initial(store);
    var s1 := Put(s0, 0, Saving(j, ThenPush)).(issued := map[j.id := j]);
    assert s0.issued[j.id := j] == map[j.id := j];
    Step(c, s0, Submit(0, j), j.id, kind);
    SaveLeads(c, s1, 0, j, ThenPush, j.id, kind);
    var s2 := With(s1, 0, Save(EMPTY, j), Pushing(j));
    Then(c, s0, s1, s2, j.id, 0, 0, kind);
    SubmitLast(c, store, j, s2);
    Step(c, s2, Advance(0), j.id, kind);
    Then(c, s0, s2, Submitted(store, j), j.id, 0, 0, kind);
  }

  lemma SubmitLast(c: Config, store: Store, j: Job, s: State)
    requires s == State(Save(EMPTY, j), store, 0.0, map[0 := Pushing(j)], map[j.id := j], {}, {}, {})
    ensures Command(c, s, 0) == Submitted(store, j)
  {
    assert {} + {j.id} == {j.id};
    assert s.actors[0 := Idle] == map[0 := Idle];
  }

  /** A worker with nothing left to promote claims the waiting job. */
  lemma TakeLeads(c: Config, s: State, j: Job, retries: nat, w: ActorId, kind: Kind) returns (t: State)
    requires OneJob(s, j, retries) && AllIdleBut(s, w) && At(s, w) == Promoting([])
    requires s.redis.pending == [j.id] && s.redis.processing == map[] && s.redis.delayed == map[]
    ensures Leads(c, s, t, j.id, 1, kind) && Held(t, j, retries, w) && t.store == s.store
  {
    var x := Started(s.redis.jobs[j.id]);
    ClaimLeads(c, s, w, j.id, kind);
    var r1 := Claimed(s.redis, j.id, s.clock);
    var s1 := With(s, w, r1, Saving(x, ThenValidate));
    SaveLeads(c, s1, w, x, ThenValidate, j.id, kind);
    WithWith(s, w, r1, Saving(x, ThenValidate), Save(r1, x), Continue(x, ThenValidate));
    t := With(s, w, Save(r1, x), Continue(x, ThenValidate));
    Then(c, s, s1, t, j.id, 1, 0, kind);
    TakenHeld(s, j, retries, w);
  }

  lemma TakenHeld(s: State, j: Job, retries: nat, w: ActorId)
    requires OneJob(s, j, retries) && AllIdleBut(s, w)
    requires s.redis.pending == [j.id] && s.redis.processing == map[] && s.redis.delayed == map[]
    ensures var x := Started(s.redis.jobs[j.id]);
            Held(With(s, w, Save(Claimed(s.redis, j.id, s.clock), x), Continue(x, ThenValidate)), j, retries, w)
  {
    var x := Started(s.redis.jobs[j.id]);
    StillIdle(s, w, Save(Claimed(s.redis, j.id, s.clock), x), Continue(x, ThenValidate));
  }

  lemma TakeWaiting(c: Config, s: State, j: Job, retries: nat, w: ActorId, kind: Kind) returns (t: State)
    requires Waiting(s, j, retries)
    ensures Leads(c, s, t, j.id, 1, kind) && Held(t, j, retries, w) && t.store == s.store
  {
    DueNothing(s.clock);
    Step(c, s, Poll(w, s.clock), j.id, kind);
    var s1 := With(s, w, s.redis, Promoting([]));
    StillIdle(s, w, s.redis, Promoting([]));
    t := TakeLeads(c, s1, j, retries, w, kind);
    Then(c, s, s1, t, j.id, 0, 1, kind);
  }

  lemma TakeDue(c: Config, s: State, j: Job, retries: nat, w: ActorId, kind: Kind) returns (t: State)
    requires Due(s, j, retries)
    ensures Leads(c, s, t, j.id, 1, kind) && Held(t, j, retries, w) && t.store == s.store
  {
    DueSingle(s.redis.delayed, j.id, s.clock);
    Step(c, s, Poll(w, s.clock), j.id, kind);
    var s1 := With(s, w, s.redis, Promoting([j.id]));
    PromoteLeads(c, s1, w, j.id, kind);
    var r2 := PushPending(DropDelayed(s.redis, j.id), j.id);
    WithWith(s, w, s.redis, Promoting([j.id]), r2, Promoting([]));
    var s2 := With(s, w, r2, Promoting([]));
    Then(c, s, s1, s2, j.id, 0, 0, kind);
    StillIdle(s, w, r2, Promoting([]));
    t := TakeLeads(c, s2, j, retries, w, kind);
    Then(c, s, s2, t, j.id, 0, 1, kind);
  }

  /** Long enough for anything to become stale or due. */
  function LongEnough(c: Config): Time {
    (if c.base < 0.0 then -c.base else c.base) + (if c.older < 0.0 then -c.older else c.older)
  }

  lemma WaitLeads(c: Config, s: State, d: Time, id: JobId, kind: Kind)
    requires d >= 0.0
    ensures Leads(c, s, s.(clock := s.clock + d), id, 0, kind)
  {
    Step(c, s, Tick(d), id, kind);
  }

  /** The sweep has scheduled the job again, and its worker still has it as it was. */
  ghost predicate Shared(c: Config, s: State, j: Job, w: ActorId) {
    && OneJob(s, j, 1) && AllIdleBut(s, w)
    && s.redis.pending == [] && s.redis.processing == map[]
    && s.redis.delayed.Keys == {j.id} && 0.0 <= s.redis.delayed[j.id] <= s.clock + LongEnough(c)
    && At(s, w).Saving? && At(s, w).after == ThenProcess
    && At(s, w).job.SameWork(j) && At(s, w).job.retryCount == 0 && At(s, w).job.history == []
  }

  /** After a long enough wait a sweep finds the job stale and reads its record. */
  lemma SweepFinds(c: Config, s: State, j: Job, w: ActorId, sweeper: ActorId) returns (t: State)
    requires Held(s, j, 0, w) && w != sweeper
    requires s.clock - s.redis.processing[j.id] >= c.older
    ensures Leads(c, s, t, j.id, 0, AllHit) && t == With(s, sweeper, s.redis, Releasing(s.redis.jobs[j.id], STALE_ERROR, []))
  {
    var order := [j.id];
    assert StaleSet(s.redis, c.older, s.clock) == {j.id};
    assert At(s, sweeper) == Idle;
    Step(c, s, Sweep(sweeper, order, s.clock), j.id, AllHit);
    var s1 := With(s, sweeper, s.redis, Sweeping(order));
    assert order[1..] == [];
    t := With(s, sweeper, s.redis, Releasing(s.redis.jobs[j.id], STALE_ERROR, []));
    WithWith(s, sweeper, s.redis, Sweeping(order), s.redis, Releasing(s.redis.jobs[j.id], STALE_ERROR, []));
    More(c, s, s1, sweeper, s.redis, Releasing(s.redis.jobs[j.id], STALE_ERROR, []), j.id, 0, AllHit);
  }

  lemma SweptShared(c: Config, s: State, j: Job, w: ActorId, sweeper: ActorId)
    requires Held(s, j, 0, w) && w != sweeper && j.maxRetries >= 1 && s.clock >= LongEnough(c)
    ensures Shared(c, With(s, sweeper, Retry(s.redis, s.redis.jobs[j.id], STALE_ERROR, c.base, s.clock), Idle), j, w)
  {
    var r := Retry(s.redis, s.redis.jobs[j.id], STALE_ERROR, c.base, s.clock);
    assert Power2(0) == 1 && Backoff(c.base, 1) == c.base;
    assert r.delayed == map[j.id := s.clock + c.base];
    forall a | a != w ensures At(With(s, sweeper, r, Idle), a) == Idle { assert At(s, a) == Idle; }
  }

  /** A recovery sweep takes the job of a worker that is only slow. */
  lemma RecoverLeads(c: Config, s: State, j: Job, w: ActorId) returns (t: State)
    requires Held(s, j, 0, w) && j.maxRetries >= 1
    ensures Leads(c, s, t, j.id, 0, AllHit) && Shared(c, t, j, w) && t.store == s.store
  {
    var d := LongEnough(c);
    WaitLeads(c, s, d, j.id, AllHit);
    var s1 := s.(clock := s.clock + d);
    assert AllIdleBut(s1, w) by { assert forall a :: At(s1, a) == At(s, a); }
    var s2 := SweepFinds(c, s1, j, w, w + 1);
    Then(c, s, s1, s2, j.id, 0, 0, AllHit);
    var copy, x := s1.redis.jobs[j.id], Releasing(s1.redis.jobs[j.id], STALE_ERROR, []);
    RetryLeads(c, s2, w + 1, copy, STALE_ERROR, j.id, AllHit);
    var r := Retry(s1.redis, copy, STALE_ERROR, c.base, s1.clock);
    WithWith(s1, w + 1, s1.redis, x, r, Idle);
    t := With(s1, w + 1, r, Idle);
    SweptShared(c, s1, j, w, w + 1);
    Then(c, s, s2, t, j.id, 0, 0, AllHit);
  }

  /** The slow worker writes its own copy of the record back, and the retry is forgotten. */
  lemma ForgetLeads(c: Config, s: State, j: Job, w: ActorId) returns (t: State)
    requires Shared(c, s, j, w)
    ensures Leads(c, s, t, j.id, 0, AllHit) && Due(t, j, 0)
  {
    var x := At(s, w).job;
    var r1 := SetJob(s.redis, x);
    Stay(c, s, j.id, AllHit);
    More(c, s, s, w, r1, Indexing(x, ThenProcess), j.id, 0, AllHit);
    var s1 := With(s, w, r1, Indexing(x, ThenProcess));
    Step(c, s1, Crash(w), j.id, AllHit);
    var s2 := Next(c, s1, Crash(w));
    Then(c, s, s1, s2, j.id, 0, 0, AllHit);
    WaitLeads(c, s2, LongEnough(c), j.id, AllHit);
    t := s2.(clock := s2.clock + LongEnough(c));
    Then(c, s, s2, t, j.id, 0, 0, AllHit);
    forall a ensures At(t, a) == Idle { assert a != w ==> At(s, a) == Idle; }
  }

  lemma {:induction false} SlowLeads(c: Config, s: State, j: Job, n: nat) returns (t: State)
    requires Held(s, j, 0, 1) && j.maxRetries >= 1
    ensures Leads(c, s, t, j.id, n, AllHit) && t.issued == map[j.id := j]
    decreases n
  {
    if n == 0 {
      Stay(c, s, j.id, AllHit);
      t := s;
    } else {
      var s1 := RecoverLeads(c, s, j, 1);
      var s2 := ForgetLeads(c, s1, j, 1);
      var s3 := TakeDue(c, s2, j, 0, 1, AllHit);
      Then(c, s, s1, s2, j.id, 0, 0, AllHit);
      Then(c, s, s2, s3, j.id, 0, 1, AllHit);
      t := SlowLeads(c, s3, j, n - 1);
      Then(c, s, s3, t, j.id, 1, n - 1, AllHit);
    }
  }

  // ----- Promotions that race -----

  /** A failed attempt and its `retry`. */
  lemma AttemptFails(c: Config, s: State, w: ActorId, id: JobId, error: string, kind: Kind)
    requires Guarded(At(s, w)) && (!kind.NoSweep? ==> At(s, w).job.id in s.redis.processing)
    ensures Leads(c, s, With(s, w, Retry(s.redis, FailedAttempt(At(s, w).job, error), error, c.base, s.clock), Idle), id, 0, kind)
  {
    var x := FailedAttempt(At(s, w).job, error);
    var r := Retry(s.redis, x, error, c.base, s.clock);
    Step(c, s, Fail(w, error), id, kind);
    var s1 := With(s, w, s.redis, Releasing(x, error, []));
    RetryLeads(c, s1, w, x, error, id, kind);
    WithWith(s, w, s.redis, Releasing(x, error, []), r, Idle);
    Then(c, s, s1, With(s, w, r, Idle), id, 0, 0, kind);
  }

  lemma HeldLonger(c: Config, s: State, j: Job, w: ActorId)
    requires Held(s, j, 0, w)
    ensures Held(s.(clock := s.clock + LongEnough(c)), j, 0, w)
  {
    var t := s.(clock := s.clock + LongEnough(c));
    forall a | a != w ensures At(t, a) == Idle { assert At(s, a) == Idle; }
  }

  /** A failed attempt puts the job into the delayed set. */
  lemma FailedDue(c: Config, s: State, j: Job, w: ActorId, error: string)
    requires Held(s, j, 0, w) && j.maxRetries >= 1 && s.clock >= LongEnough(c)
    ensures var s' := With(s, w, Retry(s.redis, FailedAttempt(At(s, w).job, error), error, c.base, s.clock), Idle);
            Due(s'.(clock := s'.clock + LongEnough(c)), j, 1)
  {
    var r := Retry(s.redis, FailedAttempt(At(s, w).job, error), error, c.base, s.clock);
    var t := With(s, w, r, Idle).(clock := s.clock + LongEnough(c));
    assert Power2(0) == 1 && Backoff(c.base, 1) == c.base;
    assert r.delayed == map[j.id := s.clock + c.base] && r.processing == map[];
    assert r.jobs.Keys == {j.id};
    forall a ensures At(t, a) == Idle { assert a != w ==> At(s, a) == Idle; }
  }

  lemma FailLeads(c: Config, s: State, j: Job, w: ActorId, error: string, kind: Kind) returns (t: State)
    requires Held(s, j, 0, w) && j.maxRetries >= 1 && s.clock >= LongEnough(c)
    ensures Leads(c, s, t, j.id, 0, kind) && Due(t, j, 1)
  {
    AttemptFails(c, s, w, j.id, error, kind);
    FailedDue(c, s, j, w, error);
    var s1 := With(s, w, Retry(s.redis, FailedAttempt(At(s, w).job, error), error, c.base, s.clock), Idle);
    WaitLeads(c, s1, LongEnough(c), j.id, kind);
    t := s1.(clock := s1.clock + LongEnough(c));
    Then(c, s, s1, t, j.id, 0, 0, kind);
  }

  /** The first n workers have read the due set, and the first k of them have promoted what they read. */
  ghost predicate Racing(s: State, j: Job, k: nat, n: nat) {
    && k <= n && s.issued == map[j.id := j] && j.id in s.redis.jobs && s.redis.jobs[j.id].id == j.id
    && s.redis.pending == Repeated(j.id, k)
    && (forall a | 0 <= a < k :: At(s, a) == Promoting([]))
    && (forall a | k <= a < n :: At(s, a) == Promoting([j.id]))
  }

  function Repeated(id: JobId, n: nat): seq<JobId> {
    seq(n, _ => id)
  }

  lemma {:induction false} PollLeads(c: Config, s: State, j: Job, n: nat) returns (t: State)
    requires Due(s, j, 1)
    ensures Leads(c, s, t, j.id, 0, NoSweep) && Racing(t, j, 0, n)
    ensures t.redis == s.redis && t.clock == s.clock && forall a | a >= n :: At(t, a) == Idle
    decreases n
  {
    if n == 0 {
      Stay(c, s, j.id, NoSweep);
      t := s;
    } else {
      var s1 := PollLeads(c, s, j, n - 1);
      DueSingle(s.redis.delayed, j.id, s.clock);
      assert At(s1, n - 1) == Idle;
      Step(c, s1, Poll(n - 1, s1.clock), j.id, NoSweep);
      t := With(s1, n - 1, s1.redis, Promoting([j.id]));
      Then(c, s, s1, t, j.id, 0, 0, NoSweep);
      OthersWith(s1, n - 1, s1.redis, Promoting([j.id]));
    }
  }

  lemma {:induction false} PushLeads(c: Config, s: State, j: Job, k: nat, n: nat) returns (t: State)
    requires k <= n && Racing(s, j, 0, n)
    ensures Leads(c, s, t, j.id, 0, NoSweep) && Racing(t, j, k, n)
    decreases k
  {
    if k == 0 {
      Stay(c, s, j.id, NoSweep);
      t := s;
    } else {
      var s1 := PushLeads(c, s, j, k - 1, n);
      PromoteLeads(c, s1, k - 1, j.id, NoSweep);
      t := With(s1, k - 1, PushPending(DropDelayed(s1.redis, j.id), j.id), Promoting([]));
      Then(c, s, s1, t, j.id, 0, 0, NoSweep);
      PushedRacing(s1, j, k - 1, n);
    }
  }

  lemma PushedRacing(s: State, j: Job, k: nat, n: nat)
    requires Racing(s, j, k, n) && k < n
    ensures Racing(With(s, k, PushPending(DropDelayed(s.redis, j.id), j.id), Promoting([])), j, k + 1, n)
  {
    assert Repeated(j.id, k) + [j.id] == Repeated(j.id, k + 1);
    OthersWith(s, k, PushPending(DropDelayed(s.redis, j.id), j.id), Promoting([]));
  }

  /** The last k workers still have to take what they pushed. */
  ghost predicate Popping(s: State, j: Job, k: nat) {
    && s.issued == map[j.id := j] && j.id in s.redis.jobs && s.redis.jobs[j.id].id == j.id
    && s.redis.pending == Repeated(j.id, k)
    && (forall a | 0 <= a < k :: At(s, a) == Promoting([]))
  }

  lemma {:induction false} PopLeads(c: Config, s: State, j: Job, k: nat) returns (t: State)
    requires Popping(s, j, k)
    ensures Leads(c, s, t, j.id, k, NoSweep) && t.issued == map[j.id := j]
    decreases k
  {
    if k == 0 {
      Stay(c, s, j.id, NoSweep);
      t := s;
    } else {
      ClaimLeads(c, s, k - 1, j.id, NoSweep);
      var s1 := With(s, k - 1, Claimed(s.redis, j.id, s.clock), Saving(Started(s.redis.jobs[j.id]), ThenValidate));
      assert Repeated(j.id, k)[1..] == Repeated(j.id, k - 1);
      OthersWith(s, k - 1, s1.redis, At(s1, k - 1));
      t := PopLeads(c, s1, j, k - 1);
      Then(c, s, s1, t, j.id, 1, k - 1, NoSweep);
    }
  }

  /** The job is submitted, claimed once, fails, and becomes due. */
  lemma RetryOnce(c: Config, store: Store, j: Job, kind: Kind) returns (t: State)
    requires Jobs.Fresh(j) && j.maxRetries >= 1 && j.productId !in store.images && j.productId !in store.texts
    ensures Leads(c, Initial(store), t, j.id, 1, kind) && Due(t, j, 1)
  {
    var s0, s1 := Initial(store), Submitted(store, j);
    SubmitLeads(c, store, j, kind);
    SubmittedWaits(store, j);
    var s2 := TakeWaiting(c, s1, j, 0, 0, kind);
    Then(c, s0, s1, s2, j.id, 0, 1, kind);
    var s3 := s2.(clock := s2.clock + LongEnough(c));
    WaitLeads(c, s2, LongEnough(c), j.id, kind);
    HeldLonger(c, s2, j, 0);
    Then(c, s0, s2, s3, j.id, 1, 0, kind);
    t := FailLeads(c, s3, j, 0, "upload failed", kind);
    Then(c, s0, s3, t, j.id, 1, 0, kind);
  }

  lemma RaceLeads(c: Config, store: Store, j: Job, n: nat) returns (t: State)
    requires Jobs.Fresh(j) && j.maxRetries >= 1 && j.productId !in store.images && j.productId !in store.texts
    ensures Leads(c, Initial(store), t, j.id, 1, NoSweep) && Racing(t, j, n, n)
  {
    var s := RetryOnce(c, store, j, NoSweep);
    var s1 := PollLeads(c, s, j, n);
    Then(c, Initial(store), s, s1, j.id, 1, 0, NoSweep);
    t := PushLeads(c, s1, j, n, n);
    Then(c, Initial(store), s1, t, j.id, 1, 0, NoSweep);
  }

  // ----- What the runs show -----

  lemma {:induction false} AllHitMeans(c: Config, s: State, es: seq<Event>)
    requires AllProper(c, s, es, AllHit)
    ensures EveryRemovalHits(c, s, es)
    decreases es
  {
    if es != [] { AllHitMeans(c, Next(c, s, es[0]), es[1..]); }
  }

  ghost predicate WithoutSweeps(es: seq<Event>) {
    forall i | 0 <= i < |es| :: !es[i].Sweep?
  }

  lemma {:induction false} NoSweepMeans(c: Config, s: State, es: seq<Event>)
    requires AllProper(c, s, es, NoSweep)
    ensures WithoutSweeps(es)
    decreases es
  {
    if es != [] {
      NoSweepMeans(c, Next(c, s, es[0]), es[1..]);
      assert forall i | 0 < i < |es| :: es[i] == es[1..][i - 1];
    }
  }

  /**
   Any number of workers that read the same due set all push what they read: in some run an id stands in the
   pending list as often as one likes.
   */
  lemma ManyPromotions(c: Config, store: Store, j: Job, n: nat)
    requires Jobs.Fresh(j) && j.maxRetries >= 1 && j.productId !in store.images && j.productId !in store.texts
    ensures exists es :: Valid(c, Initial(store), es) && WithoutSweeps(es) && Run(c, Initial(store), es).redis.pending == Repeated(j.id, n)
  {
    var t := RaceLeads(c, store, j, n);
    var es :| Valid(c, Initial(store), es) && Run(c, Initial(store), es) == t && AllProper(c, Initial(store), es, NoSweep);
    NoSweepMeans(c, Initial(store), es);
  }

  /** So in some run without sweeps a job that may be retried is claimed as often as one likes. */
  lemma RacesClaimOften(c: Config, store: Store, j: Job, n: nat)
    requires Jobs.Fresh(j) && j.maxRetries >= 1 && j.productId !in store.images && j.productId !in store.texts
    ensures exists es :: Valid(c, Initial(store), es) && WithoutSweeps(es) && ClaimCount(c, Initial(store), es, j.id) == n + 1
                         && Run(c, Initial(store), es).issued == map[j.id := j]
  {
    var s := RaceLeads(c, store, j, n);
    var t := PopLeads(c, s, j, n);
    Then(c, Initial(store), s, t, j.id, 1, n, NoSweep);
    var es :| Valid(c, Initial(store), es) && Run(c, Initial(store), es) == t
              && ClaimCount(c, Initial(store), es, j.id) == 1 + n && AllProper(c, Initial(store), es, NoSweep);
    NoSweepMeans(c, Initial(store), es);
  }

  /** The worker still has the job, and it is scheduled to be given to another. */
  ghost predicate SharedWith(s: State, w: ActorId, id: JobId) {
    Carries(At(s, w), id) && id in s.redis.delayed && id !in s.redis.processing
  }

  lemma SharedMeans(c: Config, s: State, j: Job, w: ActorId)
    requires Shared(c, s, j, w)
    ensures SharedWith(s, w, j.id)
  {
  }

  lemma SlowWorkerLeads(c: Config, store: Store, j: Job, w: ActorId) returns (s: State)
    requires Jobs.Fresh(j) && j.maxRetries >= 1 && j.productId !in store.images && j.productId !in store.texts
    ensures Leads(c, Initial(store), s, j.id, 1, AllHit) && Shared(c, s, j, w) && s.store == store
  {
    var s0 := Initial(store);
    var s1 := Submitted(store, j);
    SubmitLeads(c, store, j, AllHit);
    SubmittedWaits(store, j);
    var s2 := TakeWaiting(c, s1, j, 0, w, AllHit);
    Then(c, s0, s1, s2, j.id, 0, 1, AllHit);
    s := RecoverLeads(c, s2, j, w);
    Then(c, s0, s2, s, j.id, 1, 0, AllHit);
  }

  /**
   A sweep takes a live worker's job as soon as it is old enough: the job is scheduled again while the
   worker is still at it, although every removal finds what it removes.
   */
  lemma SlowWorkerIsRecovered(c: Config, store: Store, j: Job, w: ActorId)
    requires Jobs.Fresh(j) && j.maxRetries >= 1 && j.productId !in store.images && j.productId !in store.texts
    ensures exists es :: Valid(c, Initial(store), es) && EveryRemovalHits(c, Initial(store), es)
                         && SharedWith(Run(c, Initial(store), es), w, j.id)
  {
    var s := SlowWorkerLeads(c, store, j, w);
    SharedMeans(c, s, j, w);
    var es :| Valid(c, Initial(store), es) && Run(c, Initial(store), es) == s && AllProper(c, Initial(store), es, AllHit);
    AllHitMeans(c, Initial(store), es);
  }

  /** A worker that is slow again and again makes the sweeps forget their retries: the job is claimed as often as one likes. */
  lemma SlowWorkersClaimOften(c: Config, store: Store, j: Job, n: nat)
    requires Jobs.Fresh(j) && j.maxRetries >= 1 && j.productId !in store.images && j.productId !in store.texts
    ensures exists es :: Valid(c, Initial(store), es) && EveryRemovalHits(c, Initial(store), es) && ClaimCount(c, Initial(store), es, j.id) == n + 1
                         && Run(c, Initial(store), es).issued == map[j.id := j]
  {
    var s0 := Initial(store);
    var s1 := Submitted(store, j);
    SubmitLeads(c, store, j, AllHit);
    SubmittedWaits(store, j);
    var s2 := TakeWaiting(c, s1, j, 0, 1, AllHit);
    Then(c, s0, s1, s2, j.id, 0, 1, AllHit);
    var s3 := SlowLeads(c, s2, j, n);
    Then(c, s0, s2, s3, j.id, 1, n, AllHit);
    var es :| Valid(c, s0, es) && Run(c, s0, es) == s3 && ClaimCount(c, s0, es, j.id) == 1 + n && AllProper(c, s0, es, AllHit);
    AllHitMeans(c, s0, es);
  }

  /** A worker that pops the id and stops before HSET leaves it nowhere. */
  lemma PopThenStop(c: Config, s: State, j: Job, w: ActorId) returns (t: State)
    requires Waiting(s, j, 0) && s.completed == {} && s.redis.deadLetter == []
    ensures Leads(c, s, t, j.id, 0, AllHit) && t.pushed == s.pushed && !Accounted(t, j.id)
  {
    DueNothing(s.clock);
    Step(c, s, Poll(w, s.clock), j.id, AllHit);
    var s1 := With(s, w, s.redis, Promoting([]));
    var r := s.redis.(pending := []);
    WithWith(s, w, s.redis, Promoting([]), r, Fetching(j.id));
    More(c, s, s1, w, r, Fetching(j.id), j.id, 0, AllHit);
    var s2 := With(s, w, r, Fetching(j.id));
    Step(c, s2, Crash(w), j.id, AllHit);
    t := Next(c, s2, Crash(w));
    Then(c, s, s2, t, j.id, 0, 0, AllHit);
    forall a ensures HeldBy(At(t, a)) == {} { assert At(s, a) == Idle; }
  }

  /**
   A stop inside a handoff can lose a job that was pushed, so the side condition of
   `JobGuarantees.NoJobLost` is needed.
   */
  lemma HandoffStopLoses(c: Config, store: Store, j: Job)
    requires Jobs.Fresh(j) && j.productId !in store.images && j.productId !in store.texts
    ensures exists es :: Valid(c, Initial(store), es) && j.id in Run(c, Initial(store), es).pushed
                         && !Accounted(Run(c, Initial(store), es), j.id)
  {
    var s0 := Initial(store);
    var s1 := Submitted(store, j);
    SubmitLeads(c, store, j, AllHit);
    SubmittedWaits(store, j);
    var s2 := PopThenStop(c, s1, j, 1);
    Then(c, s0, s1, s2, j.id, 0, 0, AllHit);
    var es :| Valid(c, s0, es) && Run(c, s0, es) == s2;
  }
}
