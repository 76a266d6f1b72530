/**
 The job protocol one queue method at a time. Every step is one queue method run without
 interference, and a job has at most one live holder: a recovery sweep only finds jobs
 whose worker is gone.

 This module has the steps and the invariant they keep. What the invariant says of every
 reachable state is in `QueueGuarantees`; that the queue drains is in `Draining`.
 */
module Lifecycle {
  import opened Wrappers
  import opened RealArithmetic
  import opened Jobs
  import opened QueueState

  type WorkerId = nat

  datatype Policy = Policy(base: real, older: real)

  /** The history of one job: how often it was dequeued, the backoff scheduled for it so far, and the last ready-at. */
  datatype Tally = Tally(dequeues: nat, backoff: real, readyAt: Time)

  /** `live` is the job object each busy worker holds in memory. */
  datatype System = System(redis: Redis, clock: Time, live: map<WorkerId, Job>, tally: map<JobId, Tally>)

  datatype Event =
    | Submit(job: Job)
    | Take(w: WorkerId)
    | Report(w: WorkerId, progress: nat, stage: string)
    | Finish(w: WorkerId)
    | Settle(w: WorkerId)
    | Fail(w: WorkerId, error: string)
    | Crash(w: WorkerId)
    | Sweep(order: seq<JobId>)
    | Tick(d: Time)

  const START := System(EMPTY, 0.0, map[], map[])

  ghost predicate Enabled(p: Policy, s: System, e: Event) {
    match e
    case Submit(j) => Fresh(j) && j.id !in s.redis.jobs && j.productId !in s.redis.index
    case Take(w) => w !in s.live
    case Report(w, _, _) => w in s.live && s.live[w].status == RUNNING
    case Finish(w) => w in s.live && s.live[w].status == RUNNING
    case Settle(w) => w in s.live && s.live[w].status == COMPLETED
    case Fail(w, _) => w in s.live && s.live[w].status == RUNNING
    case Crash(w) => w in s.live
    case Sweep(order) => Enumerates(order, StaleSet(s.redis, p.older, s.clock)) && NoLiveHolder(s, order)
    case Tick(d) => d >= 0.0
  }

  /** One live holder per job: the sweep runs only against jobs that no worker still holds. */
  ghost predicate NoLiveHolder(s: System, ids: seq<JobId>) {
    forall w | w in s.live :: s.live[w].id !in ids
  }

  function Waited(t: Tally, base: real, j: Job, now: Time): Tally {
    if Exhausted(j) then t
    else Tally(t.dequeues, t.backoff + Backoff(base, j.retryCount + 1), now + Backoff(base, j.retryCount + 1))
  }

  function CountRetry(p: Policy, s: System, j: Job): map<JobId, Tally> {
    if j.id in s.tally then s.tally[j.id := Waited(s.tally[j.id], p.base, j, s.clock)] else s.tally
  }

  function RetryStep(p: Policy, s: System, j: Job, error: string): System {
    s.(redis := QueueState.Retry(s.redis, j, error, p.base, s.clock), tally := CountRetry(p, s, j))
  }

  function SweepOne(p: Policy, s: System, id: JobId): System {
    if id in s.redis.jobs then RetryStep(p, s, s.redis.jobs[id], STALE_ERROR) else s.(redis := DropProcessing(s.redis, id))
  }

  function SweepAll(p: Policy, s: System, order: seq<JobId>): System
    decreases order
  {
    if order == [] then s else SweepAll(p, SweepOne(p, s, order[0]), order[1..])
  }

  function PopStep(s: System, w: WorkerId): System {
    var (r, got) := Pop(s.redis, s.clock);
    match got
    case None => s.(redis := r)
    case Some(j) =>
      var t := if j.id in s.tally then s.tally[j.id].(dequeues := s.tally[j.id].dequeues + 1) else Tally(1, 0.0, 0.0);
      s.(redis := r, live := s.live[w := j], tally := s.tally[j.id := t])
  }

  ghost function Next(p: Policy, s: System, e: Event): System {
    match e
    case Submit(j) => s.(redis := QueueState.Enqueue(s.redis, j), tally := s.tally[j.id := Tally(0, 0.0, s.clock)])
    case Take(w) => PopStep(s.(redis := Promote(s.redis, s.clock)), w)
    case Report(w, progress, stage) =>
      if w !in s.live then s
      else var j := Reported(s.live[w], progress, stage); s.(redis := Save(s.redis, j), live := s.live[w := j])
    case Finish(w) =>
      if w !in s.live then s
      else var j := CompletedAttempt(s.live[w]); s.(redis := Save(s.redis, j), live := s.live[w := j])
    case Settle(w) =>
      if w !in s.live then s else s.(redis := QueueState.Ack(s.redis, s.live[w].id), live := s.live - {w})
    case Fail(w, error) =>
      if w !in s.live then s else RetryStep(p, s, FailedAttempt(s.live[w], error), error).(live := s.live - {w})
    case Crash(w) => s.(live := s.live - {w})
    case Sweep(order) => SweepAll(p, s, order)
    case Tick(d) => s.(clock := s.clock + d)
  }

  ghost predicate Valid(p: Policy, s: System, es: seq<Event>)
    decreases es
  {
    es == [] || (Enabled(p, s, es[0]) && Valid(p, Next(p, s, es[0]), es[1..]))
  }

  ghost function Run(p: Policy, s: System, es: seq<Event>): System
    decreases es
  {
    if es == [] then s else Run(p, Next(p, s, es[0]), es[1..])
  }

  // ----- Steps are the queue methods -----

  /** A worker that takes a job dequeues, and holds what it is handed. */
  lemma TakeIsDequeue(p: Policy, s: System, w: WorkerId)
    ensures var s', (r, got) := Next(p, s, Take(w)), QueueState.Dequeue(s.redis, s.clock, s.clock);
            s'.redis == r && s'.clock == s.clock && s'.live == match got case None => s.live case Some(j) => s.live[w := j]
  {
  }

  /** A sweep recovers the ids it lists, in their order, and takes nothing from a worker's memory. */
  lemma {:induction false} SweepIsRecover(p: Policy, s: System, order: seq<JobId>)
    ensures var s' := SweepAll(p, s, order);
            s'.redis == Recover(s.redis, order, p.base, s.clock) && s'.live == s.live && s'.clock == s.clock
    decreases order
  {
    if order != [] { SweepIsRecover(p, SweepOne(p, s, order[0]), order[1..]); }
  }

  // ----- The invariant -----

  datatype Home = InPending | InProcessing | InDelayed | InDeadLetter | Nowhere

  ghost predicate At(r: Redis, id: JobId, h: Home) {
    && (id in r.pending <==> h == InPending)
    && (id in r.processing <==> h == InProcessing)
    && (id in r.delayed <==> h == InDelayed)
    && (id in r.deadLetter <==> h == InDeadLetter)
  }

  function HomeOf(r: Redis, id: JobId): Home {
    if id in r.pending then InPending
    else if id in r.processing then InProcessing
    else if id in r.delayed then InDelayed
    else if id in r.deadLetter then InDeadLetter
    else Nowhere
  }

  /** Status, retry count and number of dequeues a job must show where it is. */
  ghost predicate Agrees(j: Job, h: Home, dequeues: nat) {
    match h
    case InPending => (j.status == PENDING || j.status == RETRYING) && j.retryCount <= j.maxRetries && dequeues == j.retryCount
    case InDelayed => j.status == RETRYING && j.retryCount <= j.maxRetries && dequeues == j.retryCount
    case InProcessing => (j.status == RUNNING || j.status == COMPLETED) && j.retryCount <= j.maxRetries && dequeues == j.retryCount + 1
    case InDeadLetter => j.status == FAILED && j.retryCount == j.maxRetries + 1 && dequeues == j.retryCount
    case Nowhere => j.status == COMPLETED && j.retryCount <= j.maxRetries && dequeues == j.retryCount + 1
  }

  function Scheduled(j: Job): nat {
    if j.retryCount <= j.maxRetries then j.retryCount else j.maxRetries
  }

  /** The backoffs of the first so many retries, added up. */
  function TotalBackoff(base: real, retries: nat): real {
    if retries == 0 then 0.0 else TotalBackoff(base, retries - 1) + Backoff(base, retries)
  }

  /** The sum of the geometric series. */
  lemma {:induction false} GeometricSum(base: real, retries: nat)
    ensures TotalBackoff(base, retries) == base * (Power2(retries) as real - 1.0)
  {
    if retries > 0 {
      GeometricSum(base, retries - 1);
      var q := Power2(retries - 1) as real;
      Distribute(base, q - 1.0, q);
      assert Power2(retries) as real - 1.0 == (q - 1.0) + q;
      assert Product(base, Power2(retries) as real - 1.0) == Product(base, (q - 1.0) + q);
    }
  }

  ghost predicate Increasing(h: seq<JobResult>) {
    forall i, j | 0 <= i < j < |h| :: h[i].attempt < h[j].attempt
  }

  ghost predicate HistoryOk(j: Job) {
    && Increasing(j.history)
    && (forall i | 0 <= i < |j.history| :: 1 <= j.history[i].attempt <= j.retryCount + if j.status == COMPLETED then 1 else 0)
  }

  ghost predicate ReadyOk(r: Redis, id: JobId, clock: Time, t: Tally) {
    && (id in r.delayed ==> r.delayed[id] == t.readyAt)
    && (id in r.delayed ==> r.delayed[id] >= 0.0)
    && (id in r.pending ==> t.readyAt <= clock)
  }

  ghost predicate JobOk(p: Policy, s: System, id: JobId)
    requires id in s.redis.jobs && id in s.tally
  {
    var j, t := s.redis.jobs[id], s.tally[id];
    && j.id == id
    && At(s.redis, id, HomeOf(s.redis, id)) && Agrees(j, HomeOf(s.redis, id), t.dequeues)
    && t.backoff == TotalBackoff(p.base, Scheduled(j))
    && HistoryOk(j)
    && ReadyOk(s.redis, id, s.clock, t)
  }

  ghost predicate JobsOk(p: Policy, s: System) {
    && s.tally.Keys == s.redis.jobs.Keys
    && (forall id | id in s.redis.jobs :: JobOk(p, s, id))
  }

  ghost predicate Contained(r: Redis) {
    && (forall id | id in r.pending :: id in r.jobs)
    && r.processing.Keys <= r.jobs.Keys
    && r.delayed.Keys <= r.jobs.Keys
    && (forall id | id in r.deadLetter :: id in r.jobs)
    && Distinct(r.pending) && Distinct(r.deadLetter)
  }

  ghost predicate Indexed(r: Redis) {
    && (forall id | id in r.jobs :: r.jobs[id].productId in r.index && r.index[r.jobs[id].productId] == id)
    && (forall k | k in r.index :: r.index[k] in r.jobs && r.jobs[r.index[k]].productId == k)
  }

  ghost predicate LiveOk(s: System) {
    && (forall w | w in s.live :: s.live[w].id in s.redis.processing && s.live[w].id in s.redis.jobs && s.redis.jobs[s.live[w].id] == s.live[w])
    && (forall w, v | w in s.live && v in s.live && w != v :: s.live[w].id != s.live[v].id)
  }

  ghost predicate Inv(p: Policy, s: System) {
    && p.base >= 0.0 && s.clock >= 0.0
    && Contained(s.redis) && Indexed(s.redis)
    && JobsOk(p, s)
    && LiveOk(s)
  }

  // ----- Retrying -----

  lemma BackoffGrows(base: real, retries: nat)
    ensures TotalBackoff(base, retries + 1) == TotalBackoff(base, retries) + Backoff(base, retries + 1)
    ensures base >= 0.0 ==> Backoff(base, retries + 1) >= 0.0
  {
    var q := Power2(retries) as real;
    assert base >= 0.0 ==> base * q >= 0.0;
  }

  lemma HistoryGrows(j: Job, error: string)
    requires HistoryOk(j)
    ensures HistoryOk(Retried(j, error))
    ensures j.status == RUNNING ==> HistoryOk(CompletedAttempt(j)) && HistoryOk(Retried(FailedAttempt(j, error), error))
  {
  }

  /** A job handed to `retry`: in processing, and carrying its record or that record plus one failed attempt. */
  ghost predicate Retryable(r: Redis, j: Job, error: string) {
    && j.id in r.jobs && HomeOf(r, j.id) == InProcessing && At(r, j.id, InProcessing)
    && j.SameWork(r.jobs[j.id]) && j.retryCount == r.jobs[j.id].retryCount && j.retryCount <= j.maxRetries
    && HistoryOk(Retried(j, error))
  }

  lemma RetryHome(r: Redis, j: Job, error: string, base: real, now: Time)
    requires Retryable(r, j, error)
    ensures var r' := QueueState.Retry(r, j, error, base, now); var h := if Exhausted(j) then InDeadLetter else InDelayed;
            At(r', j.id, h) && HomeOf(r', j.id) == h && r'.jobs == r.jobs[j.id := Retried(j, error)]
            && (!Exhausted(j) ==> r'.delayed[j.id] == now + Backoff(base, j.retryCount + 1))
  {
  }

  lemma RetryKeepsJob(p: Policy, s: System, j: Job, error: string)
    requires p.base >= 0.0 && s.clock >= 0.0
    requires Retryable(s.redis, j, error) && j.id in s.tally && JobOk(p, s, j.id)
    ensures JobOk(p, RetryStep(p, s, j, error), j.id)
  {
    RetryHome(s.redis, j, error, p.base, s.clock);
    BackoffGrows(p.base, j.retryCount);
  }

  lemma RetryKeepsOthers(p: Policy, s: System, j: Job, error: string, id: JobId)
    requires id in s.redis.jobs && id in s.tally && JobOk(p, s, id) && id != j.id
    ensures var s' := RetryStep(p, s, j, error); id in s'.redis.jobs && id in s'.tally && JobOk(p, s', id)
  {
    var r' := RetryStep(p, s, j, error).redis;
    assert HomeOf(r', id) == HomeOf(s.redis, id);
  }

  lemma RetryContained(r: Redis, j: Job, error: string, base: real, now: Time)
    requires Contained(r) && Retryable(r, j, error)
    ensures Contained(QueueState.Retry(r, j, error, base, now))
  {
  }

  lemma RetryIndexed(r: Redis, j: Job, error: string, base: real, now: Time)
    requires Indexed(r) && j.id in r.jobs && j.SameWork(r.jobs[j.id])
    ensures var r' := QueueState.Retry(r, j, error, base, now);
            Indexed(r') && r'.jobs.Keys == r.jobs.Keys
  {
    assert r.index[j.productId] == j.id;
    assert QueueState.Retry(r, j, error, base, now).index == r.index;
  }

  lemma RetryJobs(p: Policy, s: System, j: Job, error: string)
    requires p.base >= 0.0 && s.clock >= 0.0
    requires JobsOk(p, s) && Retryable(s.redis, j, error)
    ensures JobsOk(p, RetryStep(p, s, j, error))
  {
    var s' := RetryStep(p, s, j, error);
    RetryHome(s.redis, j, error, p.base, s.clock);
    assert JobOk(p, s, j.id);
    RetryKeepsJob(p, s, j, error);
    forall id | id in s.redis.jobs && id != j.id ensures id in s'.tally && id in s'.redis.jobs && JobOk(p, s', id) {
      RetryKeepsOthers(p, s, j, error, id);
    }
  }

  lemma RetryInv(p: Policy, s: System, j: Job, error: string)
    requires Inv(p, s) && Retryable(s.redis, j, error) && (forall w | w in s.live :: s.live[w].id != j.id)
    ensures Inv(p, RetryStep(p, s, j, error))
  {
    RetryContained(s.redis, j, error, p.base, s.clock);
    RetryIndexed(s.redis, j, error, p.base, s.clock);
    RetryJobs(p, s, j, error);
    RetryLive(s, RetryStep(p, s, j, error), j, error, p.base);
  }

  lemma RetryLive(s: System, s': System, j: Job, error: string, base: real)
    requires LiveOk(s) && (forall w | w in s.live :: s.live[w].id != j.id)
    requires s'.live == s.live && s'.redis == QueueState.Retry(s.redis, j, error, base, s.clock)
    ensures LiveOk(s')
  {
  }

  // ----- The other steps -----

  lemma LiveIrrelevant(p: Policy, s: System, live: map<WorkerId, Job>)
    requires JobsOk(p, s)
    ensures JobsOk(p, s.(live := live))
  {
    forall id | id in s.redis.jobs ensures JobOk(p, s.(live := live), id) { assert JobOk(p, s, id); }
  }

  lemma DropLiveInv(p: Policy, s: System, w: WorkerId)
    requires Inv(p, s)
    ensures Inv(p, s.(live := s.live - {w}))
  {
    LiveIrrelevant(p, s, s.live - {w});
  }

  lemma FailInv(p: Policy, s: System, w: WorkerId, error: string)
    requires Inv(p, s) && Enabled(p, s, Fail(w, error))
    ensures Inv(p, Next(p, s, Fail(w, error)))
  {
    var j := s.live[w];
    var s1 := s.(live := s.live - {w});
    DropLiveInv(p, s, w);
    assert JobOk(p, s, j.id);
    HistoryGrows(j, error);
    RetryInv(p, s1, FailedAttempt(j, error), error);
    assert RetryStep(p, s1, FailedAttempt(j, error), error) == Next(p, s, Fail(w, error));
  }

  lemma SweepOneInv(p: Policy, s: System, id: JobId)
    requires Inv(p, s) && id in s.redis.processing && (forall w | w in s.live :: s.live[w].id != id)
    ensures var s' := SweepOne(p, s, id); Inv(p, s') && s'.live == s.live && s'.clock == s.clock && id in s.redis.jobs
    ensures SweepOne(p, s, id).redis == RecoverOne(s.redis, id, p.base, s.clock)
    ensures SweepOne(p, s, id).redis.processing == s.redis.processing - {id}
  {
    assert JobOk(p, s, id);
    HistoryGrows(s.redis.jobs[id], STALE_ERROR);
    RetryInv(p, s, s.redis.jobs[id], STALE_ERROR);
  }

  lemma {:induction false} SweepInv(p: Policy, s: System, order: seq<JobId>)
    requires Inv(p, s) && Distinct(order) && NoLiveHolder(s, order)
    requires forall id | id in order :: id in s.redis.processing
    ensures Inv(p, SweepAll(p, s, order)) && SweepAll(p, s, order).redis == Recover(s.redis, order, p.base, s.clock)
    ensures SweepAll(p, s, order).live == s.live && SweepAll(p, s, order).clock == s.clock
    decreases order
  {
    if order != [] {
      TailDistinct(order);
      SweepOneInv(p, s, order[0]);
      SweepInv(p, SweepOne(p, s, order[0]), order[1..]);
    }
  }

  lemma TailDistinct(order: seq<JobId>)
    requires order != [] && Distinct(order)
    ensures Distinct(order[1..]) && order[0] in order && order[0] !in order[1..]
    ensures forall k | k in order[1..] :: k in order
  {
  }

  lemma SaveJobs(p: Policy, s: System, j: Job)
    requires JobsOk(p, s) && j.id in s.redis.jobs && HomeOf(s.redis, j.id) == InProcessing
    requires j.SameWork(s.redis.jobs[j.id]) && j.retryCount == s.redis.jobs[j.id].retryCount
    requires HistoryOk(j) && (j.status == RUNNING || j.status == COMPLETED)
    ensures JobsOk(p, s.(redis := Save(s.redis, j)))
  {
    var s' := s.(redis := Save(s.redis, j));
    forall id | id in s.redis.jobs ensures id in s'.redis.jobs && JobOk(p, s', id) {
      assert JobOk(p, s, id);
      assert HomeOf(s'.redis, id) == HomeOf(s.redis, id);
    }
    assert j.id in s.tally;
  }

  lemma SaveIndexed(r: Redis, j: Job)
    requires Indexed(r) && Contained(r) && j.id in r.jobs && j.SameWork(r.jobs[j.id])
    ensures Indexed(Save(r, j)) && Contained(Save(r, j)) && Save(r, j).index == r.index
  {
    assert r.index[j.productId] == j.id;
  }

  lemma SaveLive(s: System, w: WorkerId, j: Job)
    requires LiveOk(s) && w in s.live && j.id == s.live[w].id
    ensures LiveOk(s.(redis := Save(s.redis, j), live := s.live[w := j]))
  {
  }

  /** A worker saves its own job again, still running or now completed. */
  lemma SaveInv(p: Policy, s: System, w: WorkerId, j: Job)
    requires Inv(p, s) && w in s.live && j.SameWork(s.live[w]) && j.retryCount == s.live[w].retryCount
    requires HistoryOk(j) && (j.status == RUNNING || j.status == COMPLETED)
    ensures Inv(p, s.(redis := Save(s.redis, j), live := s.live[w := j]))
  {
    assert JobOk(p, s, j.id);
    assert s.redis.jobs[j.id] == s.live[w];
    SaveJobs(p, s, j);
    SaveIndexed(s.redis, j);
    SaveLive(s, w, j);
    LiveIrrelevant(p, s.(redis := Save(s.redis, j)), s.live[w := j]);
  }

  lemma SettleJobs(p: Policy, s: System, gone: JobId)
    requires JobsOk(p, s) && gone in s.redis.jobs && HomeOf(s.redis, gone) == InProcessing && s.redis.jobs[gone].status == COMPLETED
    ensures JobsOk(p, s.(redis := QueueState.Ack(s.redis, gone)))
  {
    var s' := s.(redis := QueueState.Ack(s.redis, gone));
    forall id | id in s.redis.jobs ensures JobOk(p, s', id) {
      assert JobOk(p, s, id);
      assert HomeOf(s'.redis, id) == if id == gone then Nowhere else HomeOf(s.redis, id);
    }
  }

  lemma SettleLive(s: System, w: WorkerId)
    requires LiveOk(s) && w in s.live
    ensures LiveOk(s.(redis := QueueState.Ack(s.redis, s.live[w].id), live := s.live - {w}))
  {
  }

  lemma SettleInv(p: Policy, s: System, w: WorkerId)
    requires Inv(p, s) && Enabled(p, s, Settle(w))
    ensures Inv(p, Next(p, s, Settle(w)))
  {
    var gone := s.live[w].id;
    assert JobOk(p, s, gone);
    SettleJobs(p, s, gone);
    SettleLive(s, w);
    LiveIrrelevant(p, s.(redis := QueueState.Ack(s.redis, gone)), s.live - {w});
  }

  lemma SubmitJobs(p: Policy, s: System, j: Job)
    requires JobsOk(p, s) && Contained(s.redis) && Fresh(j) && j.id !in s.redis.jobs
    ensures JobsOk(p, s.(redis := QueueState.Enqueue(s.redis, j), tally := s.tally[j.id := Tally(0, 0.0, s.clock)]))
  {
    var s' := s.(redis := QueueState.Enqueue(s.redis, j), tally := s.tally[j.id := Tally(0, 0.0, s.clock)]);
    forall id | id in s'.redis.jobs ensures JobOk(p, s', id) {
      if id == j.id {
        assert HomeOf(s'.redis, id) == InPending;
      } else {
        assert JobOk(p, s, id);
        assert HomeOf(s'.redis, id) == HomeOf(s.redis, id);
      }
    }
  }

  lemma SubmitInv(p: Policy, s: System, j: Job)
    requires Inv(p, s) && Enabled(p, s, Submit(j))
    ensures Inv(p, Next(p, s, Submit(j)))
  {
    SubmitJobs(p, s, j);
    SubmitContained(s.redis, j);
    SubmitLive(s, j);
  }

  lemma SubmitLive(s: System, j: Job)
    requires LiveOk(s) && j.id !in s.redis.jobs
    ensures LiveOk(s.(redis := QueueState.Enqueue(s.redis, j)))
  {
  }

  lemma SubmitContained(r: Redis, j: Job)
    requires Contained(r) && Indexed(r) && j.id !in r.jobs && j.productId !in r.index
    ensures Contained(QueueState.Enqueue(r, j)) && Indexed(QueueState.Enqueue(r, j))
  {
  }

  // ----- Promoting and popping -----

  lemma DueDistinct(delayed: map<JobId, Time>, now: Time)
    ensures Distinct(DueList(delayed, now)) && forall id :: id in DueList(delayed, now) <==> id in DueSet(delayed, now)
  {
    var due := DueList(delayed, now);
    forall i, j | 0 <= i < j < |due| ensures due[i] != due[j] {
      assert Precedes(delayed, due[i], due[j]);
    }
  }

  lemma PromoteHomes(r: Redis, now: Time, id: JobId)
    requires At(r, id, HomeOf(r, id))
    ensures var r' := Promote(r, now);
            && At(r', id, HomeOf(r', id))
            && HomeOf(r', id) == if id in DueSet(r.delayed, now) then InPending else HomeOf(r, id)
  {
    DueDistinct(r.delayed, now);
  }

  lemma PromoteContained(r: Redis, now: Time)
    requires Contained(r) && (forall id | id in r.delayed :: id !in r.pending)
    ensures Contained(Promote(r, now))
  {
    DueDistinct(r.delayed, now);
    var due := DueList(r.delayed, now);
    forall i | 0 <= i < |due| ensures due[i] !in r.pending { assert due[i] in due; }
  }

  lemma PromoteInv(p: Policy, s: System)
    requires Inv(p, s)
    ensures Inv(p, s.(redis := Promote(s.redis, s.clock)))
  {
    var s' := s.(redis := Promote(s.redis, s.clock));
    DueDistinct(s.redis.delayed, s.clock);
    assert JobsOk(p, s') by {
      forall id | id in s.redis.jobs ensures JobOk(p, s', id) {
        assert JobOk(p, s, id);
        PromoteHomes(s.redis, s.clock, id);
      }
    }
    forall id | id in s.redis.delayed ensures id !in s.redis.pending { assert JobOk(p, s, id); }
    PromoteContained(s.redis, s.clock);
  }

  lemma PopHomes(r: Redis, now: Time, id: JobId)
    requires Contained(r) && r.pending != [] && r.jobs[r.pending[0]].id == r.pending[0]
    requires At(r, id, HomeOf(r, id))
    ensures var r' := Pop(r, now).0;
            && At(r', id, HomeOf(r', id))
            && HomeOf(r', id) == if id == r.pending[0] then InProcessing else HomeOf(r, id)
  {
    assert r.pending == [r.pending[0]] + r.pending[1..];
  }

  lemma PopContained(r: Redis, now: Time)
    requires Contained(r) && Indexed(r) && r.pending != [] && r.jobs[r.pending[0]].id == r.pending[0]
    ensures Contained(Pop(r, now).0) && Indexed(Pop(r, now).0)
  {
    var id := r.pending[0];
    assert r.index[r.jobs[id].productId] == id;
    assert forall k | k in r.pending[1..] :: k in r.pending;
  }

  lemma PopJobs(p: Policy, s: System, w: WorkerId)
    requires JobsOk(p, s) && Contained(s.redis) && s.redis.pending != []
    ensures JobsOk(p, PopStep(s, w))
  {
    var s' := PopStep(s, w);
    assert JobOk(p, s, s.redis.pending[0]);
    forall id | id in s.redis.jobs ensures id in s'.tally && id in s'.redis.jobs && JobOk(p, s', id) {
      assert JobOk(p, s, id);
      PopHomes(s.redis, s.clock, id);
    }
  }

  lemma PopInv(p: Policy, s: System, w: WorkerId)
    requires Inv(p, s) && w !in s.live
    ensures Inv(p, PopStep(s, w))
  {
    if s.redis.pending != [] {
      assert JobOk(p, s, s.redis.pending[0]);
      PopContained(s.redis, s.clock);
      PopJobs(p, s, w);
      PopLive(s, w);
    } else {
      assert PopStep(s, w) == s;
    }
  }

  lemma PopLive(s: System, w: WorkerId)
    requires LiveOk(s) && w !in s.live && s.redis.pending != [] && s.redis.pending[0] in s.redis.jobs
    requires s.redis.jobs[s.redis.pending[0]].id == s.redis.pending[0] && s.redis.pending[0] !in s.redis.processing
    ensures LiveOk(PopStep(s, w))
  {
  }

  // ----- Every run -----

  lemma InvStep(p: Policy, s: System, e: Event)
    requires Inv(p, s) && Enabled(p, s, e)
    ensures Inv(p, Next(p, s, e))
  {
    match e
    case Submit(j) => SubmitInv(p, s, j);
    case Take(w) =>
      PromoteInv(p, s);
      PopInv(p, s.(redis := Promote(s.redis, s.clock)), w);
    case Report(w, progress, stage) =>
      assert JobOk(p, s, s.live[w].id);
      SaveInv(p, s, w, Reported(s.live[w], progress, stage));
    case Finish(w) =>
      assert JobOk(p, s, s.live[w].id);
      HistoryGrows(s.live[w], "");
      SaveInv(p, s, w, CompletedAttempt(s.live[w]));
    case Settle(w) => SettleInv(p, s, w);
    case Fail(w, error) => FailInv(p, s, w, error);
    case Crash(w) => DropLiveInv(p, s, w);
    case Sweep(order) => SweepInv(p, s, order);
    case Tick(d) =>
      var s' := Next(p, s, e);
      assert JobsOk(p, s') by {
        forall id | id in s.redis.jobs ensures JobOk(p, s', id) { assert JobOk(p, s, id); }
      }
  }

  lemma {:induction false} InvRun(p: Policy, s: System, es: seq<Event>)
    requires Inv(p, s) && Valid(p, s, es)
    ensures Inv(p, Run(p, s, es))
    decreases es
  {
    if es != [] {
      InvStep(p, s, es[0]);
      InvRun(p, Next(p, s, es[0]), es[1..]);
    }
  }
}
