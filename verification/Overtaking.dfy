/**
 Runs of the command-level protocol, each from the initial state, in which one actor overtakes
 another between two of its commands although every removal finds what it removes: a job is
 claimed before its ready-at, and an attempt number is used twice.
 */
module Overtaking {
  import opened Wrappers
  import opened Jobs
  import opened QueueState
  import opened Uploads
  import opened CommandSteps
  import opened CommandRuns
  import opened Places
  import opened Claims
  import opened ReadyTimes
  import opened Attempts
  import opened Interference

  // ----- One whole attempt that fails -----

  /** Promotion, claim and first report of id leave the queue like this. */
  function Begun(r: Redis, id: JobId, now: Time): Redis
    requires r.pending == [] && id in r.jobs
  {
    Save(Claimed(PushPending(DropDelayed(r, id), id), id, now), Started(r.jobs[id]))
  }

  /** The job as a worker has it once it reports on it. */
  function Reporting(j: Job): Job {
    Reported(Started(j), 10, VALIDATING)
  }

  function Attempted(r: Redis, id: JobId, error: string, base: real, now: Time): Redis
    requires r.pending == [] && id in r.jobs
  {
    Retry(Begun(r, id, now), FailedAttempt(Reporting(r.jobs[id]), error), error, base, now)
  }

  lemma BeginLeads(c: Config, s: State, a: ActorId, id: JobId, kind: Kind)
    requires At(s, a) == Promoting([id]) && s.redis.pending == [] && id in s.redis.delayed
    requires id in s.redis.jobs && s.redis.jobs[id].id == id
    ensures Leads(c, s, With(s, a, Begun(s.redis, id, s.clock), Saving(Reporting(s.redis.jobs[id]), ThenProcess)), id, 1, kind)
  {
    var j := s.redis.jobs[id];
    var r1 := PushPending(DropDelayed(s.redis, id), id);
    PromoteLeads(c, s, a, id, kind);
    var s1 := With(s, a, r1, Promoting([]));
    assert r1.pending == [id];
    ClaimLeads(c, s1, a, id, kind);
    var r2, x2 := Claimed(r1, id, s.clock), Saving(Started(j), ThenValidate);
    WithWith(s, a, r1, Promoting([]), r2, x2);
    var s2 := With(s, a, r2, x2);
    Then(c, s, s1, s2, id, 0, 1, kind);
    SaveLeads(c, s2, a, Started(j), ThenValidate, id, kind);
    WithWith(s, a, r2, x2, Save(r2, Started(j)), Continue(Started(j), ThenValidate));
    Then(c, s, s2, With(s, a, Save(r2, Started(j)), Continue(Started(j), ThenValidate)), id, 1, 0, kind);
  }

  lemma AttemptLeads(c: Config, s: State, a: ActorId, id: JobId, error: string, kind: Kind)
    requires At(s, a) == Promoting([id]) && s.redis.pending == [] && id in s.redis.delayed
    requires id in s.redis.jobs && s.redis.jobs[id].id == id
    ensures Leads(c, s, With(s, a, Attempted(s.redis, id, error, c.base, s.clock), Idle), id, 1, kind)
  {
    var r1, x1 := Begun(s.redis, id, s.clock), Saving(Reporting(s.redis.jobs[id]), ThenProcess);
    BeginLeads(c, s, a, id, kind);
    var s1 := With(s, a, r1, x1);
    AttemptFails(c, s1, a, id, error, kind);
    WithWith(s, a, r1, x1, Attempted(s.redis, id, error, c.base, s.clock), Idle);
    Then(c, s, s1, With(s, a, Attempted(s.redis, id, error, c.base, s.clock), Idle), id, 1, 0, kind);
  }

  // ----- A late ZREM takes a job before its ready-at -----

  /** Some run of that kind from s claims id early and issues nothing more. */
  ghost predicate EarlyFrom(c: Config, s: State, id: JobId, last: Option<Time>, kind: Kind, issued: map<JobId, Job>) {
    exists es :: Valid(c, s, es) && AllProper(c, s, es, kind) && !NeverEarly(c, s, es, id, last) && Run(c, s, es).issued == issued
  }

  lemma EarlyNow(c: Config, s: State, e: Event, id: JobId, last: Option<Time>, kind: Kind)
    requires Enabled(c, s, e) && Proper(s, e, kind) && ClaimsEarly(s, e, id, last)
    ensures EarlyFrom(c, s, id, last, kind, s.issued)
  {
    var es, s' := [e], Next(c, s, e);
    assert es[0] == e && es[1..] == [];
    assert Valid(c, s', []) && AllProper(c, s', [], kind) && Run(c, s', []) == s';
    assert Valid(c, s, es);
    assert AllProper(c, s, es, kind);
    assert !NeverEarly(c, s, es, id, last);
    assert Run(c, s, es) == s';
  }

  lemma EarlyNext(c: Config, s: State, e: Event, id: JobId, last: Option<Time>, kind: Kind, issued: map<JobId, Job>)
    requires Enabled(c, s, e) && Proper(s, e, kind) && EarlyFrom(c, Next(c, s, e), id, Scheduled(s, e, id, last), kind, issued)
    ensures EarlyFrom(c, s, id, last, kind, issued)
  {
    var t, last' := Next(c, s, e), Scheduled(s, e, id, last);
    var fs :| Valid(c, t, fs) && AllProper(c, t, fs, kind) && !NeverEarly(c, t, fs, id, last') && Run(c, t, fs).issued == issued;
    var es := [e] + fs;
    assert es[1..] == fs;
    assert Valid(c, s, es) && AllProper(c, s, es, kind) && !NeverEarly(c, s, es, id, last);
  }

  /** Whatever led to a state with id in the delayed set, the entry there is the last ready-at scheduled. */
  lemma EarlyAfter(c: Config, s: State, t: State, id: JobId, n: nat, last: Option<Time>, kind: Kind)
    requires Leads(c, s, t, id, n, kind) && EntryIsLast(s, id, last)
    requires id in t.redis.delayed && EarlyFrom(c, t, id, Some(t.redis.delayed[id]), kind, t.issued)
    ensures EarlyFrom(c, s, id, last, kind, t.issued)
  {
    var es :| Valid(c, s, es) && Run(c, s, es) == t && ClaimCount(c, s, es, id) == n && AllProper(c, s, es, kind);
    var fs :| Valid(c, t, fs) && AllProper(c, t, fs, kind) && !NeverEarly(c, t, fs, id, Some(t.redis.delayed[id])) && Run(c, t, fs).issued == t.issued;
    EntryIsLastRun(c, s, es, id, last);
    RunOn(c, s, es, fs, id, kind);
    EarlyInTail(c, s, es, fs, id, last);
  }

  /** An actor with id on the way to a claim, at a time before the last ready-at. */
  ghost predicate TooSoon(s: State, a: ActorId, x: Actor, id: JobId, last: Option<Time>) {
    && At(s, a) == x && last.Some? && s.clock < last.value
    && id in s.redis.jobs && s.redis.jobs[id].id == id
  }

  lemma EarlyFetched(c: Config, s: State, a: ActorId, id: JobId, last: Option<Time>, kind: Kind)
    requires TooSoon(s, a, Fetching(id), id, last)
    ensures EarlyFrom(c, s, id, last, kind, s.issued)
  {
    var t := Next(c, s, Advance(a));
    assert At(t, a) == Claiming(s.redis.jobs[id]);
    EarlyNow(c, t, Advance(a), id, last, kind);
    EarlyNext(c, s, Advance(a), id, last, kind, s.issued);
  }

  lemma EarlyPopped(c: Config, s: State, a: ActorId, id: JobId, last: Option<Time>, kind: Kind)
    requires TooSoon(s, a, Promoting([]), id, last) && s.redis.pending == [id]
    ensures EarlyFrom(c, s, id, last, kind, s.issued)
  {
    EarlyFetched(c, Next(c, s, Advance(a)), a, id, last, kind);
    EarlyNext(c, s, Advance(a), id, last, kind, s.issued);
  }

  lemma EarlyPushed(c: Config, s: State, a: ActorId, id: JobId, last: Option<Time>, kind: Kind)
    requires TooSoon(s, a, PromotePush(id, []), id, last) && s.redis.pending == []
    ensures EarlyFrom(c, s, id, last, kind, s.issued)
  {
    EarlyPopped(c, Next(c, s, Advance(a)), a, id, last, kind);
    EarlyNext(c, s, Advance(a), id, last, kind, s.issued);
  }

  lemma EarlyPulled(c: Config, s: State, a: ActorId, id: JobId, last: Option<Time>, kind: Kind)
    requires TooSoon(s, a, Promoting([id]), id, last) && s.redis.pending == [] && id in s.redis.delayed
    ensures EarlyFrom(c, s, id, last, kind, s.issued)
  {
    assert [id][1..] == [];
    EarlyPushed(c, Next(c, s, Advance(a)), a, id, last, kind);
    EarlyNext(c, s, Advance(a), id, last, kind, s.issued);
  }

  /** The queue after a failed attempt of a job that may be retried: it is delayed for a time to come. */
  lemma AttemptedLater(r: Redis, id: JobId, error: string, base: real, now: Time)
    requires r.pending == [] && id in r.jobs && r.jobs[id].id == id
    requires r.jobs[id].retryCount + 1 <= r.jobs[id].maxRetries && base > 0.0
    ensures var r' := Attempted(r, id, error, base, now);
            && r'.pending == [] && id in r'.jobs && r'.jobs[id].id == id
            && id in r'.delayed && now < r'.delayed[id]
  {
    BackoffPositive(base, r.jobs[id].retryCount + 1);
  }

  lemma BackoffPositive(base: real, retries: nat)
    requires base > 0.0 && retries >= 1
    ensures Backoff(base, retries) > 0.0
  {
    var q := Power2(retries - 1) as real;
    assert base * q > 0.0;
  }

  lemma BothRead(c: Config, s: State, j: Job, retries: nat, kind: Kind) returns (t: State)
    requires Due(s, j, retries)
    ensures Leads(c, s, t, j.id, 0, kind) && t.redis == s.redis && t.clock == s.clock && t.issued == s.issued
    ensures At(t, 0) == Promoting([j.id]) && At(t, 1) == Promoting([j.id])
  {
    DueSingle(s.redis.delayed, j.id, s.clock);
    var s1 := With(s, 0, s.redis, Promoting([j.id]));
    Step(c, s, Poll(0, s.clock), j.id, kind);
    assert At(s, 1) == Idle && At(s1, 1) == Idle;
    t := With(s1, 1, s.redis, Promoting([j.id]));
    Step(c, s1, Poll(1, s.clock), j.id, kind);
    Then(c, s, s1, t, j.id, 0, 0, kind);
  }

  /** One worker reads the due set; another takes the job, fails, and schedules it anew; the first one's ZREM hits. */
  lemma OvertakenEarly(c: Config, s: State, j: Job, retries: nat, kind: Kind)
    requires Due(s, j, retries) && retries + 1 <= j.maxRetries && c.base > 0.0
    ensures EarlyFrom(c, s, j.id, Some(s.redis.delayed[j.id]), kind, s.issued)
  {
    var id, error := j.id, "upload failed";
    var s1 := BothRead(c, s, j, retries, kind);
    AttemptLeads(c, s1, 1, id, error, kind);
    var r := Attempted(s.redis, id, error, c.base, s.clock);
    var s2 := With(s1, 1, r, Idle);
    Then(c, s, s1, s2, id, 0, 1, kind);
    AttemptedLater(s.redis, id, error, c.base, s.clock);
    assert At(s2, 0) == At(s1, 0);
    EarlyPulled(c, s2, 0, id, Some(r.delayed[id]), kind);
    EarlyAfter(c, s, s2, id, 1, Some(s.redis.delayed[id]), kind);
  }

  lemma DueEarly(c: Config, store: Store, s: State, j: Job, retries: nat, n: nat, kind: Kind)
    requires Leads(c, Initial(store), s, j.id, n, kind) && Due(s, j, retries) && retries + 1 <= j.maxRetries && c.base > 0.0
    ensures EarlyFrom(c, Initial(store), j.id, None, kind, map[j.id := j])
  {
    OvertakenEarly(c, s, j, retries, kind);
    EarlyAfter(c, Initial(store), s, j.id, n, None, kind);
  }

  lemma {:induction false} HitNoSweepMeans(c: Config, s: State, es: seq<Event>, id: JobId)
    requires AllProper(c, s, es, HitNoSweep)
    ensures EveryRemovalHits(c, s, es) && AllCareful(c, s, es, id)
    decreases es
  {
    if es != [] { HitNoSweepMeans(c, Next(c, s, es[0]), es[1..], id); }
  }

  lemma {:induction false} HitNoSweepHasNone(c: Config, s: State, es: seq<Event>)
    requires AllProper(c, s, es, HitNoSweep)
    ensures WithoutSweeps(es)
    decreases es
  {
    if es != [] {
      HitNoSweepHasNone(c, Next(c, s, es[0]), es[1..]);
      assert forall i | 0 < i < |es| :: es[i] == es[1..][i - 1];
    }
  }

  /**
   A job that may be retried twice is claimed before its ready-at in some run without sweeps in which every removal
   hits and which is careful about the job.
   */
  lemma CarefulRunsClaimEarly(c: Config, store: Store, j: Job)
    requires Jobs.Fresh(j) && j.maxRetries >= 2 && c.base > 0.0
    requires j.productId !in store.images && j.productId !in store.texts
    ensures exists es :: Valid(c, Initial(store), es) && EveryRemovalHits(c, Initial(store), es) && WithoutSweeps(es)
                         && AllCareful(c, Initial(store), es, j.id) && !NeverEarly(c, Initial(store), es, j.id, None)
                         && Run(c, Initial(store), es).issued == map[j.id := j]
  {
    var s := RetryOnce(c, store, j, HitNoSweep);
    DueEarly(c, store, s, j, 1, 1, HitNoSweep);
    var es :| Valid(c, Initial(store), es) && AllProper(c, Initial(store), es, HitNoSweep)
              && !NeverEarly(c, Initial(store), es, j.id, None) && Run(c, Initial(store), es).issued == map[j.id := j];
    HitNoSweepMeans(c, Initial(store), es, j.id);
    HitNoSweepHasNone(c, Initial(store), es);
  }

  /** A job that may be retried is due again as if it never had been, once a slow worker has saved its own copy. */
  lemma ForgottenDue(c: Config, store: Store, j: Job) returns (s: State)
    requires Jobs.Fresh(j) && j.maxRetries >= 1 && j.productId !in store.images && j.productId !in store.texts
    ensures Leads(c, Initial(store), s, j.id, 1, AllHit) && Due(s, j, 0)
  {
    var s0 := Initial(store);
    var s1 := SlowWorkerLeads(c, store, j, 1);
    s := ForgetLeads(c, s1, j, 1);
    Then(c, s0, s1, s, j.id, 1, 0, AllHit);
  }

  /** So a job that may be retried at all is claimed before its ready-at in some run in which every removal hits. */
  lemma RunsClaimEarly(c: Config, store: Store, j: Job)
    requires Jobs.Fresh(j) && j.maxRetries >= 1 && c.base > 0.0
    requires j.productId !in store.images && j.productId !in store.texts
    ensures exists es :: Valid(c, Initial(store), es) && EveryRemovalHits(c, Initial(store), es) && !NeverEarly(c, Initial(store), es, j.id, None)
                         && Run(c, Initial(store), es).issued == map[j.id := j]
  {
    var s := ForgottenDue(c, store, j);
    DueEarly(c, store, s, j, 0, 1, AllHit);
    var es :| Valid(c, Initial(store), es) && AllProper(c, Initial(store), es, AllHit)
              && !NeverEarly(c, Initial(store), es, j.id, None) && Run(c, Initial(store), es).issued == map[j.id := j];
    AllHitMeans(c, Initial(store), es);
  }

  // ----- A completed job is given to another worker -----

  /** What a worker has in hand between its uploads and its completion. */
  function Uploaded(j: Job): Job {
    Reported(Reported(j, 40, PROCESSING), 80, CACHING)
  }

  /** The two upserts of an attempt. */
  lemma UploadLeads(c: Config, s: State, w: ActorId, id: JobId) returns (t: State)
    requires At(s, w).Uploading? && Prepare(c.svc, c.mode, At(s, w).job.payload, s.store).Ok?
    ensures Leads(c, s, t, id, 0, AllHit)
    ensures t == Put(s, w, Saving(Reported(At(s, w).job, 80, CACHING), ThenComplete)).(store := t.store)
  {
    var j := At(s, w).job;
    var plan := Prepare(c.svc, c.mode, j.payload, s.store).value;
    Step(c, s, Advance(w), id, AllHit);
    var s1 := Next(c, s, Advance(w));
    assert At(s1, w) == PuttingImage(j, plan);
    Step(c, s1, Advance(w), id, AllHit);
    var s2 := Next(c, s1, Advance(w));
    assert At(s2, w) == PuttingText(j, plan);
    Step(c, s2, Advance(w), id, AllHit);
    t := Next(c, s2, Advance(w));
    Then(c, s, s1, s2, id, 0, 0, AllHit);
    Then(c, s, s2, t, id, 0, 0, AllHit);
    PutPut(s, w, PuttingImage(j, plan), PuttingText(j, plan), At(t, w));
  }

  lemma PutPut(s: State, w: ActorId, x: Actor, y: Actor, z: Actor)
    ensures s.actors[w := x][w := y][w := z] == s.actors[w := z]
  {
  }

  /** The worker has stopped after its last SET; but for the job's record the queue is as it was, and so are the other actors. */
  ghost predicate CompletedBy(s: State, t: State, w: ActorId, j: Job) {
    && t.redis.jobs == s.redis.jobs[j.id := CompletedAttempt(j)]
    && t.redis.pending == s.redis.pending && t.redis.processing == s.redis.processing && t.redis.delayed == s.redis.delayed
    && t.clock == s.clock && t.issued == s.issued && (forall a :: At(t, a) == if a == w then Idle else At(s, a))
  }

  /** The SET that says COMPLETED, and a stop before the acknowledgement. */
  lemma FinishLeads(c: Config, s: State, w: ActorId, j: Job, id: JobId) returns (t: State)
    requires At(s, w) == Saving(CompletedAttempt(j), ThenAck)
    ensures Leads(c, s, t, id, 0, AllHit) && CompletedBy(s, t, w, j)
  {
    Step(c, s, Advance(w), id, AllHit);
    var s1 := Next(c, s, Advance(w));
    assert At(s1, w) == Indexing(CompletedAttempt(j), ThenAck);
    Step(c, s1, Crash(w), id, AllHit);
    t := Next(c, s1, Crash(w));
    Then(c, s, s1, t, id, 0, 0, AllHit);
  }

  /** The two reports before the uploads. */
  lemma ReportsLead(c: Config, s: State, w: ActorId, x: Job, id: JobId) returns (t: State)
    requires At(s, w) == Saving(x, ThenProcess)
    ensures var y := Reported(x, 40, PROCESSING);
            Leads(c, s, t, id, 0, AllHit) && t == With(s, w, Save(Save(s.redis, x), y), Uploading(y))
  {
    var y := Reported(x, 40, PROCESSING);
    SaveLeads(c, s, w, x, ThenProcess, id, AllHit);
    var r1 := Save(s.redis, x);
    var s1 := With(s, w, r1, Saving(y, ThenUpload));
    SaveLeads(c, s1, w, y, ThenUpload, id, AllHit);
    WithWith(s, w, r1, Saving(y, ThenUpload), Save(r1, y), Uploading(y));
    t := With(s, w, Save(r1, y), Uploading(y));
    Then(c, s, s1, t, id, 0, 0, AllHit);
  }

  /** The reports, the uploads and the last report. */
  lemma ToCompletion(c: Config, s: State, w: ActorId, x: Job, id: JobId) returns (t: State)
    requires At(s, w) == Saving(x, ThenProcess) && Prepare(c.svc, c.mode, x.payload, s.store).Ok?
    ensures var y := Reported(x, 40, PROCESSING); var z := Uploaded(x);
            && Leads(c, s, t, id, 0, AllHit)
            && t == With(s, w, Save(Save(Save(s.redis, x), y), z), Saving(CompletedAttempt(z), ThenAck)).(store := t.store)
  {
    var y, z := Reported(x, 40, PROCESSING), Uploaded(x);
    var s1 := ReportsLead(c, s, w, x, id);
    var s2 := UploadLeads(c, s1, w, id);
    Then(c, s, s1, s2, id, 0, 0, AllHit);
    t := With(s2, w, Save(s1.redis, z), Saving(CompletedAttempt(z), ThenAck));
    LastReportLeads(c, s2, w, z, id);
    Then(c, s, s2, t, id, 0, 0, AllHit);
    PutPut(s, w, Uploading(y), Saving(z, ThenComplete), Saving(CompletedAttempt(z), ThenAck));
  }

  lemma LastReportLeads(c: Config, s: State, w: ActorId, z: Job, id: JobId)
    requires At(s, w) == Saving(z, ThenComplete)
    ensures Leads(c, s, With(s, w, Save(s.redis, z), Saving(CompletedAttempt(z), ThenAck)), id, 0, AllHit)
  {
    SaveLeads(c, s, w, z, ThenComplete, id, AllHit);
  }

  /** From the first report to the SET that says COMPLETED. */
  lemma CompleteLeads(c: Config, s: State, w: ActorId, x: Job, id: JobId) returns (t: State)
    requires At(s, w) == Saving(x, ThenProcess) && Prepare(c.svc, c.mode, x.payload, s.store).Ok?
    ensures Leads(c, s, t, id, 0, AllHit) && CompletedBy(s, t, w, Uploaded(x))
  {
    var s1 := ToCompletion(c, s, w, x, id);
    t := FinishLeads(c, s1, w, Uploaded(x), id);
    Then(c, s, s1, t, id, 0, 0, AllHit);
    CompletedFrom(s, s1, t, w, x);
  }

  lemma CompletedFrom(s: State, s1: State, t: State, w: ActorId, x: Job)
    requires var y := Reported(x, 40, PROCESSING); var z := Uploaded(x);
             s1 == With(s, w, Save(Save(Save(s.redis, x), y), z), Saving(CompletedAttempt(z), ThenAck)).(store := s1.store)
    requires CompletedBy(s1, t, w, Uploaded(x))
    ensures CompletedBy(s, t, w, Uploaded(x))
  {
    forall a ensures At(t, a) == if a == w then Idle else At(s, a) {
      assert At(t, a) == if a == w then Idle else At(s1, a);
    }
  }

  ghost predicate RecordRepeats(s: State, id: JobId) {
    id in s.redis.jobs && Repeats(s.redis.jobs[id].history)
  }

  /** An attempt at a job whose record says COMPLETED repeats the number of the attempt that completed it. */
  lemma SecondEnd(r: Redis, j: Job, error: string, base: real, now: Time)
    requires r.pending == [] && j.id in r.jobs && r.jobs[j.id] == CompletedAttempt(j) && j.history == []
    ensures var r' := Attempted(r, j.id, error, base, now); j.id in r'.jobs && Repeats(r'.jobs[j.id].history)
  {
    var h := Attempted(r, j.id, error, base, now).jobs[j.id].history;
    assert h == [JobResult(j.retryCount + 1, true, None), JobResult(j.retryCount + 1, false, Some(error))];
    assert h[0].attempt == h[1].attempt;
  }

  /** From a state with a completed job in the delayed set alone: wait, poll, and fail. */
  lemma AgainLeads(c: Config, s: State, j: Job) returns (t: State)
    requires At(s, 0) == Idle && s.redis.pending == [] && s.redis.delayed.Keys == {j.id}
    requires 0.0 <= s.redis.delayed[j.id] <= s.clock + LongEnough(c)
    requires j.id in s.redis.jobs && s.redis.jobs[j.id] == CompletedAttempt(j) && j.history == []
    ensures Leads(c, s, t, j.id, 1, AllHit) && RecordRepeats(t, j.id)
  {
    var id, error := j.id, "upload failed";
    WaitLeads(c, s, LongEnough(c), id, AllHit);
    var s1 := s.(clock := s.clock + LongEnough(c));
    DueSingle(s1.redis.delayed, id, s1.clock);
    assert At(s1, 0) == At(s, 0);
    Step(c, s1, Poll(0, s1.clock), id, AllHit);
    var s2 := With(s1, 0, s1.redis, Promoting([id]));
    Then(c, s, s1, s2, id, 0, 0, AllHit);
    AttemptLeads(c, s2, 0, id, error, AllHit);
    t := With(s2, 0, Attempted(s2.redis, id, error, c.base, s2.clock), Idle);
    Then(c, s, s2, t, id, 0, 1, AllHit);
    SecondEnd(s.redis, j, error, c.base, s1.clock);
  }

  lemma SharedCompletes(c: Config, s: State, j: Job) returns (t: State)
    requires Shared(c, s, j, 1) && Prepare(c.svc, c.mode, j.payload, s.store).Ok?
    ensures Leads(c, s, t, j.id, 1, AllHit) && RecordRepeats(t, j.id)
  {
    var x := At(s, 1).job;
    var s1 := CompleteLeads(c, s, 1, x, j.id);
    assert At(s, 0) == Idle && At(s1, 0) == At(s, 0);
    t := AgainLeads(c, s1, Uploaded(x));
    Then(c, s, s1, t, j.id, 0, 1, AllHit);
  }

  /**
   A slow worker completes a job that a sweep has scheduled again; the next worker is given the COMPLETED record,
   and its attempt has the number of the one that completed, although every removal hits.
   */
  lemma AttemptNumberRepeats(c: Config, store: Store, j: Job)
    requires Jobs.Fresh(j) && j.maxRetries >= 1 && j.productId !in store.images && j.productId !in store.texts
    requires Prepare(c.svc, c.mode, j.payload, store).Ok?
    ensures exists es :: Valid(c, Initial(store), es) && EveryRemovalHits(c, Initial(store), es)
                         && RecordRepeats(Run(c, Initial(store), es), j.id)
  {
    var s := SlowWorkerLeads(c, store, j, 1);
    var t := SharedCompletes(c, s, j);
    Then(c, Initial(store), s, t, j.id, 1, 1, AllHit);
    var es :| Valid(c, Initial(store), es) && Run(c, Initial(store), es) == t && AllProper(c, Initial(store), es, AllHit);
    AllHitMeans(c, Initial(store), es);
  }
}
