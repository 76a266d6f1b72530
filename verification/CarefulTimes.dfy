/**
 When runs that are careful about a job, in the sense of `Claims`, also wait for its ready-at: always
 if it may be retried once at most, since it is then scheduled once at most.
 */
module CarefulTimes {
  import opened Wrappers
  import opened Jobs
  import opened QueueState
  import opened Uploads
  import opened CommandSteps
  import opened Places
  import opened Claims
  import opened ReadyTimes
  import opened Overtaking
  import opened ClaimBound

  ghost predicate RetriedOnce(s: State, id: JobId) {
    id in s.issued ==> s.issued[id].maxRetries <= 1
  }

  predicate JobRetried(r: Redis, id: JobId) {
    id in r.jobs && r.jobs[id].retryCount >= 1
  }

  /** An actor has read id among the due ids and has not come to it yet. */
  predicate Listed(x: Actor, id: JobId) {
    (x.Promoting? || x.PromotePush?) && id in x.due
  }

  /** The retry is in the record, and the ZADD is still to come. */
  predicate ToSchedule(x: Actor, id: JobId) {
    (x.Indexing? && Retries(x) && x.after.ThenDelay? && x.job.id == id) || (x.Delaying? && x.id == id)
  }

  predicate ActorOnce(r: Redis, now: Time, x: Actor, id: JobId, last: Option<Time>) {
    && (Listed(x, id) ==> last.Some? && last.value <= now)
    && (Retries(x) && x.job.id == id ==> x.job.retryCount >= 1 && (x.after.ThenDelay? ==> last.None?))
    && (ToSchedule(x, id) ==> last.None? && JobRetried(r, id))
    && (Submitting(x) && x.job.id == id ==> last.None?)
  }

  /** The job has been scheduled once at most, and every due list that names it was read when it was due. */
  ghost predicate Once(s: State, id: JobId, last: Option<Time>) {
    && Timely(s, id, last)
    && (last.Some? ==> JobRetried(s.redis, id))
    && (forall a :: ActorOnce(s.redis, s.clock, At(s, a), id, last))
  }

  /** The record stays that of a retried job, unless a submission writes it. */
  lemma RetriedStays(c: Config, s: State, e: Event, id: JobId, t: nat, last: Option<Time>)
    requires Known(s) && Paced(s, id, t) && Once(s, id, last) && JobRetried(s.redis, id)
    requires e.Advance? && Submitting(At(s, e.a)) ==> At(s, e.a).job.id != id
    ensures JobRetried(Next(c, s, e).redis, id)
  {
    Disturbs(c, s, e, id);
    if e.Advance? {
      var x := At(s, e.a);
      assert ActorPaced(s.redis, id, t, x) && ActorOnce(s.redis, s.clock, x, id, last);
      if RetryMove(x) { RetryKeepsRecords(c, s, e.a); }
      if UploadMove(x) { UploadKeepsRedis(c, s, e.a); }
    }
  }

  // ----- The acting actor -----

  lemma OnceQueueMove(c: Config, s: State, a: ActorId, id: JobId, last: Option<Time>)
    requires Once(s, id, last) && QueueMove(At(s, a))
    ensures ActorOnce(Command(c, s, a).redis, s.clock, At(Command(c, s, a), a), id, last)
  {
    assert ActorOnce(s.redis, s.clock, At(s, a), id, last);
  }

  lemma OnceSaveMove(c: Config, s: State, a: ActorId, id: JobId, last: Option<Time>)
    requires Once(s, id, last) && SaveMove(At(s, a))
    ensures ActorOnce(Command(c, s, a).redis, s.clock, At(Command(c, s, a), a), id, last)
  {
    assert ActorOnce(s.redis, s.clock, At(s, a), id, last);
  }

  /** A job scheduled before is retried out at its next release. */
  lemma OnceReleasing(c: Config, s: State, a: ActorId, id: JobId, t: nat, last: Option<Time>)
    requires Copies(s) && RetriedOnce(s, id) && Paced(s, id, t) && Once(s, id, last) && At(s, a).Releasing?
    ensures ActorOnce(Command(c, s, a).redis, s.clock, At(Command(c, s, a), a), id, last)
  {
    assert ActorOnce(s.redis, s.clock, At(s, a), id, last);
    assert ActorPaced(s.redis, id, t, At(s, a));
    assert ActorCopies(s.issued, At(s, a));
  }

  lemma OnceOtherMove(c: Config, s: State, a: ActorId, id: JobId, last: Option<Time>)
    requires !QueueMove(At(s, a)) && !SaveMove(At(s, a)) && !At(s, a).Releasing? && !At(s, a).Idle?
    ensures ActorOnce(Command(c, s, a).redis, s.clock, At(Command(c, s, a), a), id, last)
  {
    if UploadMove(At(s, a)) { UploadKeepsRedis(c, s, a); }
  }

  /** A poll lists the job only if its ready-at has come. */
  lemma OncePoll(c: Config, s: State, e: Event, id: JobId, last: Option<Time>)
    requires Timely(s, id, last) && Enabled(c, s, e) && e.Poll?
    ensures ActorOnce(Next(c, s, e).redis, s.clock, At(Next(c, s, e), e.a), id, last)
  {
    assert id in DueList(s.redis.delayed, e.now) <==> id in DueSet(s.redis.delayed, e.now);
  }

  lemma OnceSubmit(c: Config, s: State, e: Event, id: JobId, last: Option<Time>)
    requires Copies(s) && (last.Some? ==> JobRetried(s.redis, id)) && Enabled(c, s, e) && e.Submit?
    ensures ActorOnce(Next(c, s, e).redis, s.clock, At(Next(c, s, e), e.a), id, last)
  {
  }

  lemma OnceOutside(c: Config, s: State, e: Event, id: JobId, last: Option<Time>)
    requires Once(s, id, last) && Enabled(c, s, e) && (e.Sweep? || e.Fail? || e.Crash?)
    ensures ActorOnce(Next(c, s, e).redis, s.clock, At(Next(c, s, e), e.a), id, last)
  {
    assert ActorOnce(s.redis, s.clock, At(s, e.a), id, last);
  }

  lemma OnceActing(c: Config, s: State, e: Event, id: JobId, t: nat, last: Option<Time>)
    requires Known(s) && Copies(s) && RetriedOnce(s, id) && Paced(s, id, t) && Once(s, id, last) && Enabled(c, s, e) && !e.Tick?
    ensures ActorOnce(Next(c, s, e).redis, Next(c, s, e).clock, At(Next(c, s, e), e.a), id, last)
  {
    ClockAfter(c, s, e);
    if e.Poll? { OncePoll(c, s, e, id, last); }
    else if e.Submit? { OnceSubmit(c, s, e, id, last); }
    else if !e.Advance? { OnceOutside(c, s, e, id, last); }
    else if QueueMove(At(s, e.a)) { OnceQueueMove(c, s, e.a, id, last); }
    else if SaveMove(At(s, e.a)) { OnceSaveMove(c, s, e.a, id, last); }
    else if At(s, e.a).Releasing? { OnceReleasing(c, s, e.a, id, t, last); }
    else { OnceOtherMove(c, s, e.a, id, last); }
  }

  /** The actor that issues the ZADD is done with the job. */
  lemma OnceScheduled(c: Config, s: State, a: ActorId, id: JobId, last: Option<Time>)
    requires At(s, a).Delaying?
    ensures ActorOnce(Command(c, s, a).redis, s.clock, At(Command(c, s, a), a), id, last)
  {
  }

  // ----- The other actors -----

  lemma OnceOther(c: Config, s: State, e: Event, id: JobId, t: nat, last: Option<Time>, b: ActorId)
    requires Known(s) && Paced(s, id, t) && Once(s, id, last) && Enabled(c, s, e) && (e.Tick? || b != e.a)
    ensures ActorOnce(Next(c, s, e).redis, Next(c, s, e).clock, At(s, b), id, Scheduled(s, e, id, last))
  {
    ClockAfter(c, s, e);
    assert ActorOnce(s.redis, s.clock, At(s, b), id, last);
    if e.Advance? { assert ActorOnce(s.redis, s.clock, At(s, e.a), id, last); }
    if e.Advance? && id in Owned(At(s, e.a)) && id in Owned(At(s, b)) {
      assert false;
    } else if ToSchedule(At(s, b), id) {
      RetriedStays(c, s, e, id, t, last);
    }
  }

  // ----- Steps and runs -----

  lemma OnceRecord(c: Config, s: State, e: Event, id: JobId, t: nat, last: Option<Time>)
    requires Known(s) && Paced(s, id, t) && Once(s, id, last)
    ensures Scheduled(s, e, id, last).Some? ==> JobRetried(Next(c, s, e).redis, id)
  {
    if e.Advance? { assert ActorOnce(s.redis, s.clock, At(s, e.a), id, last); }
    if Scheduled(s, e, id, last).Some? { RetriedStays(c, s, e, id, t, last); }
  }

  lemma OnceTimely(c: Config, s: State, e: Event, id: JobId, last: Option<Time>)
    requires Once(s, id, last) && Enabled(c, s, e)
    ensures !PullsEarly(s, e, id) && Timely(Next(c, s, e), id, Scheduled(s, e, id, last))
  {
    if e.Advance? { assert ActorOnce(s.redis, s.clock, At(s, e.a), id, last); }
    TimelyLostExactly(c, s, e, id, last);
  }

  lemma OnceActors(c: Config, s: State, e: Event, id: JobId, t: nat, last: Option<Time>)
    requires Known(s) && Copies(s) && RetriedOnce(s, id) && Paced(s, id, t) && Once(s, id, last) && Enabled(c, s, e)
    ensures forall a :: ActorOnce(Next(c, s, e).redis, Next(c, s, e).clock, At(Next(c, s, e), a), id, Scheduled(s, e, id, last))
  {
    OthersStay(c, s, e);
    forall a ensures ActorOnce(Next(c, s, e).redis, Next(c, s, e).clock, At(Next(c, s, e), a), id, Scheduled(s, e, id, last)) {
      if e.Tick? || a != e.a { OnceOther(c, s, e, id, t, last, a); }
      else if e.Advance? && At(s, e.a).Delaying? { OnceScheduled(c, s, a, id, Scheduled(s, e, id, last)); ClockAfter(c, s, e); }
      else { OnceActing(c, s, e, id, t, last); }
    }
  }

  lemma OnceStep(c: Config, s: State, e: Event, id: JobId, t: nat, last: Option<Time>)
    requires Known(s) && Copies(s) && RetriedOnce(s, id) && Paced(s, id, t) && Once(s, id, last) && Enabled(c, s, e)
    ensures Once(Next(c, s, e), id, Scheduled(s, e, id, last))
  {
    OnceTimely(c, s, e, id, last);
    OnceRecord(c, s, e, id, t, last);
    OnceActors(c, s, e, id, t, last);
  }

  /** All three invariants, for a job that has been claimed some number of times. */
  ghost predicate OnTrack(c: Config, before: Store, s: State, id: JobId, last: Option<Time>) {
    exists t: nat :: Inv(c, before, s) && Paced(s, id, t) && Once(s, id, last)
  }

  lemma OnTrackStep(c: Config, before: Store, s: State, e: Event, id: JobId, last: Option<Time>)
    requires OnTrack(c, before, s, id, last) && RetriedOnce(s, id) && Careful(s, e, id) && Enabled(c, s, e)
    ensures OnTrack(c, before, Next(c, s, e), id, Scheduled(s, e, id, last)) && !ClaimsEarly(s, e, id, last)
  {
    var t: nat :| Inv(c, before, s) && Paced(s, id, t) && Once(s, id, last);
    InvStep(c, before, s, e);
    ClaimTimely(s, e, id, last);
    PacedStep(c, before, s, e, id, t);
    OnceStep(c, s, e, id, t, last);
  }

  lemma {:induction false} OnceRun(c: Config, before: Store, s: State, es: seq<Event>, id: JobId, last: Option<Time>)
    requires OnTrack(c, before, s, id, last) && Valid(c, s, es) && RetriedOnce(Run(c, s, es), id) && AllCareful(c, s, es, id)
    ensures NeverEarly(c, s, es, id, last)
    decreases es
  {
    if id in s.issued { IssuedRun(c, s, es, id); }
    if es != [] {
      OnTrackStep(c, before, s, es[0], id, last);
      OnceRun(c, before, Next(c, s, es[0]), es[1..], id, Scheduled(s, es[0], id, last));
    }
  }

  /** A job that may be retried once at most is never claimed early in a run that is careful about it. */
  lemma CarefulOnTime(c: Config, store: Store, es: seq<Event>, id: JobId)
    requires Valid(c, Initial(store), es) && RetriedOnce(Run(c, Initial(store), es), id) && AllCareful(c, Initial(store), es, id)
    ensures NeverEarly(c, Initial(store), es, id, None)
  {
    InvInitial(c, store);
    InitialPaced(store, id);
    assert OnTrack(c, store, Initial(store), id, None);
    OnceRun(c, store, Initial(store), es, id, None);
  }

  ghost predicate CarefulAlwaysOnTime(c: Config, store: Store, j: Job) {
    forall es | Valid(c, Initial(store), es) && Issues(Run(c, Initial(store), es), j) && AllCareful(c, Initial(store), es, j.id) ::
      NeverEarly(c, Initial(store), es, j.id, None)
  }

  /** Every careful run waits for the ready-at if and only if the job is retried once at most or retries are not delayed. */
  lemma CarefulOnTimeExactly(c: Config, store: Store, j: Job)
    requires Jobs.Fresh(j) && j.productId !in store.images && j.productId !in store.texts
    ensures CarefulAlwaysOnTime(c, store, j) <==> j.maxRetries <= 1 || c.base <= 0.0
  {
    if j.maxRetries <= 1 || c.base <= 0.0 {
      forall es | Valid(c, Initial(store), es) && Issues(Run(c, Initial(store), es), j) && AllCareful(c, Initial(store), es, j.id)
        ensures NeverEarly(c, Initial(store), es, j.id, None)
      {
        if j.maxRetries <= 1 { CarefulOnTime(c, store, es, j.id); } else { NoDelayNeverEarly(c, Initial(store), es, j.id, None); }
      }
    } else {
      CarefulRunsClaimEarly(c, store, j);
      var es :| Valid(c, Initial(store), es) && AllCareful(c, Initial(store), es, j.id) && !NeverEarly(c, Initial(store), es, j.id, None)
                && Run(c, Initial(store), es).issued == map[j.id := j];
      assert Issues(Run(c, Initial(store), es), j);
    }
  }
}
