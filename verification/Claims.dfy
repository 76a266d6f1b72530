/**
 How often a job is claimed by a worker, and how many hold it, one command at a time. The bound
 `retry` is there for holds of every run in which promotions find what they promote, and sweeps
 take only jobs in processing that no actor still has in memory. In such careful runs attempt
 numbers rise, too (`Attempts`); that no claim comes before its time takes more (`ReadyTimes`).
 */
module Claims {
  import opened Jobs
  import opened QueueState
  import opened Uploads
  import opened CommandSteps
  import opened Places

  /** The HSET that gives id to a worker. */
  predicate ClaimsJob(s: State, e: Event, id: JobId) {
    e.Advance? && At(s, e.a).Claiming? && At(s, e.a).job.id == id
  }

  ghost function ClaimCount(c: Config, s: State, es: seq<Event>, id: JobId): nat
    decreases es
  {
    if es == [] then 0 else One(ClaimsJob(s, es[0], id)) + ClaimCount(c, Next(c, s, es[0]), es[1..], id)
  }

  /** An actor has the job in memory. */
  predicate Carries(x: Actor, id: JobId) {
    Carried(x).Some? && Carried(x).value.id == id
  }

  /** A promotion finds id in the delayed set; a sweep finds it in processing and in no actor's memory. */
  ghost predicate Careful(s: State, e: Event, id: JobId) {
    e.Advance? ==>
      match At(s, e.a)
      case Promoting(due) => due != [] && due[0] == id ==> id in s.redis.delayed
      case Sweeping(rest) => rest != [] && rest[0] == id ==> id in s.redis.processing && NoCarrier(s, id)
      case _ => true
  }

  ghost predicate NoCarrier(s: State, id: JobId) {
    forall a :: !Carries(At(s, a), id)
  }

  ghost predicate AllCareful(c: Config, s: State, es: seq<Event>, id: JobId)
    decreases es
  {
    es == [] || (Careful(s, es[0], id) && AllCareful(c, Next(c, s, es[0]), es[1..], id))
  }

  // ----- The invariant, for one job that has been claimed t times -----

  /** A job that may be claimed again. */
  predicate Ready(r: Redis, id: JobId, t: nat) {
    id in r.jobs && t <= r.jobs[id].retryCount <= r.jobs[id].maxRetries && r.jobs[id].status != COMPLETED
  }

  /** A job that has been claimed. */
  predicate Taken(r: Redis, id: JobId, t: nat) {
    id in r.jobs && t <= r.jobs[id].retryCount + 1 && r.jobs[id].retryCount <= r.jobs[id].maxRetries
  }

  /** Between the claim of a job and its release or acknowledgement. */
  predicate Works(x: Actor) {
    || ((x.Saving? || x.Indexing?) && !x.after.ThenPush? && !x.after.ThenBury? && !x.after.ThenDelay?)
    || UploadMove(x) || x.Acking? || x.Releasing?
  }

  /** Between the release of a job and its next container. */
  predicate Retries(x: Actor) {
    (x.Saving? || x.Indexing?) && (x.after.ThenBury? || x.after.ThenDelay?)
  }

  predicate HandsOver(x: Actor) {
    x.PromotePush? || x.Fetching? || x.Delaying?
  }

  predicate ActorPaced(r: Redis, id: JobId, t: nat, x: Actor) {
    && (Submitting(x) && x.job.id == id ==> t == 0 && x.job.retryCount == 0 && x.job.status != COMPLETED && (!x.Saving? ==> Ready(r, id, t)))
    && (HandsOver(x) && x.id == id ==> Ready(r, id, t))
    && (x.Claiming? && x.job.id == id ==> Ready(r, id, t) && x.job.retryCount == r.jobs[id].retryCount && x.job.status != COMPLETED)
    && (Works(x) && x.job.id == id ==> id in r.processing && Taken(r, id, t) && x.job.retryCount == r.jobs[id].retryCount)
    && (Retries(x) && x.job.id == id && x.after.ThenDelay? ==>
          t <= x.job.retryCount <= x.job.maxRetries && x.job.status != COMPLETED && (x.Indexing? ==> Ready(r, id, t)))
  }

  predicate QueuePaced(r: Redis, id: JobId, t: nat) {
    && (id in r.pending || id in r.delayed ==> Ready(r, id, t))
    && (id in r.processing ==> Taken(r, id, t))
  }

  ghost predicate WithinBound(s: State, id: JobId, t: nat) {
    if id in s.issued then t <= s.issued[id].maxRetries + 1 else t == 0
  }

  ghost predicate OneCarrier(s: State, id: JobId) {
    forall a, b :: Carries(At(s, a), id) && Carries(At(s, b), id) ==> a == b
  }

  ghost predicate Paced(s: State, id: JobId, t: nat) {
    && OnePlace(s, id) && OneCarrier(s, id)
    && WithinBound(s, id, t)
    && QueuePaced(s.redis, id, t)
    && (forall a :: ActorPaced(s.redis, id, t, At(s, a)))
  }

  // ----- Steps keep it -----

  predicate Involved(x: Actor, id: JobId) {
    Carries(x, id) || id in Owned(x)
  }

  /** An actor that has nothing to do with the job asks nothing of the queue. */
  lemma UninvolvedPaced(r: Redis, id: JobId, t: nat, x: Actor)
    requires !Involved(x, id)
    ensures ActorPaced(r, id, t, x)
  {
  }

  /** Whoever works on a job, or owns and carries it, is alone with it. */
  lemma Alone(s: State, id: JobId, t: nat, a: ActorId, b: ActorId)
    requires Paced(s, id, t) && a != b && Carries(At(s, a), id)
    ensures !Involved(At(s, b), id)
  {
    assert ActorPaced(s.redis, id, t, At(s, a));
  }

  /** Nobody carries a job that an actor owns without carrying it. */
  lemma OwnerAlone(s: State, id: JobId, t: nat, a: ActorId, b: ActorId)
    requires Paced(s, id, t) && a != b && id in Owned(At(s, a))
    ensures !Involved(At(s, b), id)
  {
    assert ActorPaced(s.redis, id, t, At(s, b));
  }

  /** What the step of an actor that is not involved leaves as it was. */
  ghost predicate SameFor(r: Redis, r': Redis, id: JobId) {
    && (id in r.jobs ==> id in r'.jobs && r'.jobs[id] == r.jobs[id])
    && (id in r.processing ==> id in r'.processing)
  }

  lemma SamePaced(r: Redis, r': Redis, id: JobId, t: nat, x: Actor)
    requires SameFor(r, r', id) && ActorPaced(r, id, t, x)
    ensures ActorPaced(r', id, t, x)
  {
  }

  lemma RetryDisturbs(c: Config, s: State, a: ActorId, id: JobId)
    requires RetryMove(At(s, a)) && !At(s, a).Discarding?
    ensures SameFor(s.redis, Command(c, s, a).redis, id) || Carries(At(s, a), id)
  {
    RetryKeepsRecords(c, s, a);
  }

  lemma SaveDisturbs(c: Config, s: State, a: ActorId, id: JobId)
    requires !RetryMove(At(s, a))
    ensures SameFor(s.redis, Command(c, s, a).redis, id) || Carries(At(s, a), id)
  {
    if UploadMove(At(s, a)) { UploadKeepsRedis(c, s, a); }
  }

  /** A step either leaves the job's record count and processing entry, or is made by an actor that carries it. */
  lemma Disturbs(c: Config, s: State, e: Event, id: JobId)
    requires Known(s)
    ensures SameFor(s.redis, Next(c, s, e).redis, id) || (e.Advance? && Carries(At(s, e.a), id))
    ensures ClaimsJob(s, e, id) ==> Carries(At(s, e.a), id)
  {
    if e.Advance? {
      assert ActorKnown(s.redis.jobs, At(s, e.a));
      if RetryMove(At(s, e.a)) { RetryDisturbs(c, s, e.a, id); } else { SaveDisturbs(c, s, e.a, id); }
    }
  }

  lemma OthersPaced(c: Config, s: State, e: Event, id: JobId, t: nat, b: ActorId)
    requires Copies(s) && Known(s) && Paced(s, id, t) && (e.Tick? || b != e.a)
    ensures ActorPaced(Next(c, s, e).redis, id, t + One(ClaimsJob(s, e, id)), At(Next(c, s, e), b))
  {
    OthersStay(c, s, e);
    Disturbs(c, s, e, id);
    assert ActorPaced(s.redis, id, t, At(s, b));
    if e.Advance? && Carries(At(s, e.a), id) {
      Alone(s, id, t, e.a, b);
      UninvolvedPaced(Next(c, s, e).redis, id, t + One(ClaimsJob(s, e, id)), At(s, b));
    } else {
      SamePaced(s.redis, Next(c, s, e).redis, id, t, At(s, b));
    }
  }

  /** The acting actor and the queue after its step, for a job now claimed t times. */
  ghost predicate ActingPaced(s': State, a: ActorId, id: JobId, t: nat) {
    ActorPaced(s'.redis, id, t, At(s', a)) && QueuePaced(s'.redis, id, t)
  }

  lemma PromotePaced(c: Config, s: State, a: ActorId, id: JobId, t: nat)
    requires Paced(s, id, t) && Careful(s, Advance(a), id) && (At(s, a).Promoting? || At(s, a).PromotePush? || At(s, a).Pushing?)
    ensures ActingPaced(Command(c, s, a), a, id, t)
  {
    assert ActorPaced(s.redis, id, t, At(s, a));
  }

  lemma FetchPaced(c: Config, s: State, a: ActorId, id: JobId, t: nat)
    requires Copies(s) && Paced(s, id, t) && At(s, a).Fetching?
    ensures ActingPaced(Command(c, s, a), a, id, t)
  {
    assert ActorPaced(s.redis, id, t, At(s, a));
  }

  lemma ClaimPaced(c: Config, s: State, a: ActorId, id: JobId, t: nat)
    requires Copies(s) && Paced(s, id, t) && At(s, a).Claiming?
    ensures ActingPaced(Command(c, s, a), a, id, t + One(At(s, a).job.id == id))
    ensures At(s, a).job.id == id ==> WithinBound(s, id, t + 1)
  {
    assert ActorPaced(s.redis, id, t, At(s, a));
    assert ActorCopies(s.issued, At(s, a));
  }

  lemma SavePaced(c: Config, s: State, a: ActorId, id: JobId, t: nat)
    requires Copies(s) && Paced(s, id, t) && At(s, a).Saving?
    ensures ActingPaced(Command(c, s, a), a, id, t)
  {
    assert ActorPaced(s.redis, id, t, At(s, a));
    assert ActorCopies(s.issued, At(s, a));
  }

  lemma IndexPaced(c: Config, s: State, a: ActorId, id: JobId, t: nat)
    requires Paced(s, id, t) && At(s, a).Indexing?
    ensures ActingPaced(Command(c, s, a), a, id, t)
  {
    assert ActorPaced(s.redis, id, t, At(s, a));
  }

  lemma UploadPaced(c: Config, s: State, a: ActorId, id: JobId, t: nat)
    requires Paced(s, id, t) && UploadMove(At(s, a))
    ensures ActingPaced(Command(c, s, a), a, id, t)
  {
    assert ActorPaced(s.redis, id, t, At(s, a));
  }

  lemma RetryPaced(c: Config, s: State, a: ActorId, id: JobId, t: nat)
    requires Paced(s, id, t) && (At(s, a).Releasing? || At(s, a).Acking?)
    ensures ActingPaced(Command(c, s, a), a, id, t)
  {
    assert ActorPaced(s.redis, id, t, At(s, a));
  }

  lemma PlacePaced(c: Config, s: State, a: ActorId, id: JobId, t: nat)
    requires Paced(s, id, t) && (At(s, a).Burying? || At(s, a).Delaying?)
    ensures ActingPaced(Command(c, s, a), a, id, t)
  {
    assert ActorPaced(s.redis, id, t, At(s, a));
  }

  lemma SweepPaced(c: Config, s: State, a: ActorId, id: JobId, t: nat)
    requires Copies(s) && Paced(s, id, t) && Careful(s, Advance(a), id) && At(s, a).Sweeping?
    ensures ActingPaced(Command(c, s, a), a, id, t)
  {
  }

  lemma OutsidePaced(c: Config, s: State, e: Event, id: JobId, t: nat)
    requires Paced(s, id, t) && Enabled(c, s, e) && !e.Tick? && !e.Advance?
    ensures ActingPaced(Next(c, s, e), e.a, id, t)
  {
    assert ActorPaced(s.redis, id, t, At(s, e.a));
  }

  lemma QueueMovePaced(c: Config, s: State, a: ActorId, id: JobId, t: nat)
    requires Copies(s) && Paced(s, id, t) && Careful(s, Advance(a), id) && QueueMove(At(s, a))
    ensures ActingPaced(Command(c, s, a), a, id, t + One(ClaimsJob(s, Advance(a), id)))
    ensures ClaimsJob(s, Advance(a), id) ==> WithinBound(s, id, t + 1)
  {
    var x := At(s, a);
    if x.Fetching? { FetchPaced(c, s, a, id, t); }
    else if x.Claiming? { ClaimPaced(c, s, a, id, t); }
    else { PromotePaced(c, s, a, id, t); }
  }

  lemma RetryMovePaced(c: Config, s: State, a: ActorId, id: JobId, t: nat)
    requires Known(s) && Copies(s) && Paced(s, id, t) && Careful(s, Advance(a), id) && RetryMove(At(s, a))
    ensures ActingPaced(Command(c, s, a), a, id, t)
  {
    var x := At(s, a);
    assert ActorKnown(s.redis.jobs, x);
    if x.Releasing? || x.Acking? { RetryPaced(c, s, a, id, t); }
    else if x.Burying? || x.Delaying? { PlacePaced(c, s, a, id, t); }
    else { SweepPaced(c, s, a, id, t); }
  }

  lemma CommandPaced(c: Config, s: State, a: ActorId, id: JobId, t: nat)
    requires Known(s) && Copies(s) && Paced(s, id, t) && Careful(s, Advance(a), id) && !At(s, a).Idle?
    ensures ActingPaced(Command(c, s, a), a, id, t + One(ClaimsJob(s, Advance(a), id)))
    ensures ClaimsJob(s, Advance(a), id) ==> WithinBound(s, id, t + 1)
  {
    var x := At(s, a);
    if QueueMove(x) { QueueMovePaced(c, s, a, id, t); }
    else if x.Saving? { SavePaced(c, s, a, id, t); }
    else if x.Indexing? { IndexPaced(c, s, a, id, t); }
    else if UploadMove(x) { UploadPaced(c, s, a, id, t); }
    else { RetryMovePaced(c, s, a, id, t); }
  }

  /** Who carries a job after a step: whoever did, or the acting actor, and then nobody else. */
  lemma NewCarrier(c: Config, s: State, e: Event, id: JobId, t: nat, b: ActorId)
    requires Copies(s) && Paced(s, id, t) && Careful(s, e, id) && Enabled(c, s, e) && !e.Tick?
    requires Carries(At(Next(c, s, e), e.a), id) && !Carries(At(s, e.a), id) && b != e.a
    ensures !Carries(At(s, b), id)
  {
    assert ActorCopies(s.issued, At(s, b));
    if e.Advance? {
      if At(s, e.a).Fetching? {
        OwnerAlone(s, id, t, e.a, b);
      } else {
        CarriesFrom(c, s, e.a, id);
        assert NoCarrier(s, id);
      }
    }
  }

  lemma CarriesFrom(c: Config, s: State, a: ActorId, id: JobId)
    requires Copies(s) && !At(s, a).Fetching? && Carries(At(Command(c, s, a), a), id) && !Carries(At(s, a), id)
    ensures At(s, a).Sweeping? && At(s, a).rest != [] && At(s, a).rest[0] == id
  {
  }

  lemma CarrierStep(c: Config, s: State, e: Event, id: JobId, t: nat)
    requires Copies(s) && Paced(s, id, t) && Careful(s, e, id) && Enabled(c, s, e)
    ensures OneCarrier(Next(c, s, e), id)
  {
    var s' := Next(c, s, e);
    OthersStay(c, s, e);
    forall a, b | Carries(At(s', a), id) && Carries(At(s', b), id) ensures a == b {
      if e.Tick? || (a != e.a && b != e.a) {
        assert Carries(At(s, a), id) && Carries(At(s, b), id);
      } else if !Carries(At(s, e.a), id) {
        if a != e.a { NewCarrier(c, s, e, id, t, a); }
        if b != e.a { NewCarrier(c, s, e, id, t, b); }
      }
    }
  }

  /** The removals of a careful step hit, so the job stays in one place. */
  lemma CarefulHits(c: Config, before: Store, s: State, e: Event, id: JobId, t: nat)
    requires Inv(c, before, s) && Paced(s, id, t) && Careful(s, e, id) && Enabled(c, s, e)
    ensures OnePlace(Next(c, s, e), id)
  {
    OnePlaceLostExactly(c, before, s, e, id);
    if e.Advance? { assert ActorPaced(s.redis, id, t, At(s, e.a)); }
  }

  lemma ActingStep(c: Config, s: State, e: Event, id: JobId, t: nat)
    requires Known(s) && Copies(s) && Paced(s, id, t) && Careful(s, e, id) && Enabled(c, s, e) && !e.Tick?
    ensures ActingPaced(Next(c, s, e), e.a, id, t + One(ClaimsJob(s, e, id)))
    ensures ClaimsJob(s, e, id) ==> WithinBound(s, id, t + 1)
  {
    if e.Advance? { CommandPaced(c, s, e.a, id, t); } else { OutsidePaced(c, s, e, id, t); }
  }

  /** Only an issued job is claimed, so the bound carries over. */
  lemma BoundStep(c: Config, s: State, e: Event, id: JobId, t: nat)
    requires WithinBound(s, id, t) && Enabled(c, s, e)
    requires ClaimsJob(s, e, id) ==> WithinBound(s, id, t + 1)
    ensures WithinBound(Next(c, s, e), id, t + One(ClaimsJob(s, e, id)))
  {
    IssuedStep(c, s, e);
  }

  lemma ActorsStep(c: Config, s: State, e: Event, id: JobId, t: nat)
    requires Known(s) && Copies(s) && Paced(s, id, t)
    requires !e.Tick? ==> ActingPaced(Next(c, s, e), e.a, id, t + One(ClaimsJob(s, e, id)))
    ensures forall a :: ActorPaced(Next(c, s, e).redis, id, t + One(ClaimsJob(s, e, id)), At(Next(c, s, e), a))
  {
    forall a ensures ActorPaced(Next(c, s, e).redis, id, t + One(ClaimsJob(s, e, id)), At(Next(c, s, e), a)) {
      if e.Tick? || a != e.a { OthersPaced(c, s, e, id, t, a); }
    }
  }

  lemma PacedStep(c: Config, before: Store, s: State, e: Event, id: JobId, t: nat)
    requires Inv(c, before, s) && Paced(s, id, t) && Careful(s, e, id) && Enabled(c, s, e)
    ensures Paced(Next(c, s, e), id, t + One(ClaimsJob(s, e, id)))
  {
    CarefulHits(c, before, s, e, id, t);
    CarrierStep(c, s, e, id, t);
    if !e.Tick? { ActingStep(c, s, e, id, t); }
    BoundStep(c, s, e, id, t);
    ActorsStep(c, s, e, id, t);
  }

  /** The invariant, for a job that has been claimed so often. */
  ghost predicate PacedCount(s: State, id: JobId, count: nat) {
    exists t: nat :: t == count && Paced(s, id, t)
  }

  lemma {:induction false} PacedRun(c: Config, before: Store, s: State, es: seq<Event>, id: JobId, t: nat)
    requires Inv(c, before, s) && Valid(c, s, es) && Paced(s, id, t) && AllCareful(c, s, es, id)
    ensures PacedCount(Run(c, s, es), id, t + ClaimCount(c, s, es, id))
    decreases es
  {
    if es != [] {
      InvStep(c, before, s, es[0]);
      PacedStep(c, before, s, es[0], id, t);
      PacedRun(c, before, Next(c, s, es[0]), es[1..], id, t + One(ClaimsJob(s, es[0], id)));
    }
  }

  lemma InitialPaced(store: Store, id: JobId)
    ensures Paced(Initial(store), id, 0)
  {
    UnissuedNowhere(Initial(store), id);
    OnePlaceIff(Initial(store), id);
  }

  /**
   In a run that is careful about a job it is claimed at most `maxRetries + 1` times, stays in one place,
   and has one holder at a time.
   */
  lemma ClaimsBounded(c: Config, store: Store, es: seq<Event>, id: JobId)
    requires Valid(c, Initial(store), es) && AllCareful(c, Initial(store), es, id)
    ensures var s, t := Run(c, Initial(store), es), ClaimCount(c, Initial(store), es, id);
            && (if id in s.issued then t <= s.issued[id].maxRetries + 1 else t == 0)
            && OnePlace(s, id) && OneCarrier(s, id)
  {
    InvInitial(c, store);
    InitialPaced(store, id);
    PacedRun(c, store, Initial(store), es, id, 0);
  }

  // ----- When a job gets a second holder -----

  /** A GET of the job's record by an actor that goes on with what it reads. */
  predicate Reads(s: State, e: Event, id: JobId) {
    && e.Advance? && id in s.redis.jobs
    && match At(s, e.a)
       case Fetching(k) => k == id
       case Sweeping(rest) => rest != [] && rest[0] == id
       case _ => false
  }

  ghost predicate CarriedByOther(s: State, a: ActorId, id: JobId) {
    exists b :: b != a && Carries(At(s, b), id)
  }

  /** Who carries the job after a step of one actor. */
  lemma CarriesAfter(c: Config, s: State, e: Event, id: JobId)
    requires Copies(s) && Enabled(c, s, e) && !e.Tick?
    ensures Carries(At(Next(c, s, e), e.a), id) && !Carries(At(s, e.a), id) ==> Reads(s, e, id) || (e.Submit? && e.job.id == id)
    ensures Reads(s, e, id) ==> Carries(At(Next(c, s, e), e.a), id) && !Carries(At(s, e.a), id)
  {
    if e.Advance? && Carries(At(Next(c, s, e), e.a), id) && !Carries(At(s, e.a), id) && !At(s, e.a).Fetching? {
      CarriesFrom(c, s, e.a, id);
    }
  }

  /** A job with one holder at most keeps that, except by a GET of its record while another actor carries it. */
  lemma OneCarrierLostExactly(c: Config, s: State, e: Event, id: JobId)
    requires Copies(s) && Enabled(c, s, e) && OneCarrier(s, id)
    ensures !OneCarrier(Next(c, s, e), id) <==> Reads(s, e, id) && CarriedByOther(s, e.a, id)
  {
    var s' := Next(c, s, e);
    OthersStay(c, s, e);
    if e.Tick? {
      assert forall a :: At(s', a) == At(s, a);
    } else {
      CarriesAfter(c, s, e, id);
      if Reads(s, e, id) && CarriedByOther(s, e.a, id) {
        var b :| b != e.a && Carries(At(s, b), id);
        assert Carries(At(s', b), id);
      } else {
        forall a, b | Carries(At(s', a), id) && Carries(At(s', b), id) ensures a == b {
          assert ActorCopies(s.issued, At(s, a)) && ActorCopies(s.issued, At(s, b));
        }
      }
    }
  }

  ghost predicate AlwaysOneCarrier(c: Config, s: State, es: seq<Event>, id: JobId)
    decreases es
  {
    OneCarrier(s, id) && (es == [] || AlwaysOneCarrier(c, Next(c, s, es[0]), es[1..], id))
  }

  ghost predicate NeverReadTwice(c: Config, s: State, es: seq<Event>, id: JobId)
    decreases es
  {
    es == [] || (!(Reads(s, es[0], id) && CarriedByOther(s, es[0].a, id)) && NeverReadTwice(c, Next(c, s, es[0]), es[1..], id))
  }

  lemma {:induction false} OneCarrierRun(c: Config, s: State, es: seq<Event>, id: JobId)
    requires Copies(s) && Valid(c, s, es) && OneCarrier(s, id)
    ensures AlwaysOneCarrier(c, s, es, id) <==> NeverReadTwice(c, s, es, id)
    decreases es
  {
    if es != [] {
      CopiesStep(c, s, es[0]);
      OneCarrierLostExactly(c, s, es[0], id);
      if OneCarrier(Next(c, s, es[0]), id) { OneCarrierRun(c, Next(c, s, es[0]), es[1..], id); }
    }
  }

  /** All along a run a job has one holder at most if and only if nobody reads its record while another actor carries it. */
  lemma OneCarrierExactly(c: Config, store: Store, es: seq<Event>, id: JobId)
    requires Valid(c, Initial(store), es)
    ensures AlwaysOneCarrier(c, Initial(store), es, id) <==> NeverReadTwice(c, Initial(store), es, id)
  {
    InvInitial(c, store);
    OneCarrierRun(c, Initial(store), es, id);
  }
}
