/**
 For which jobs the bound on claims and the ready-at hold in every run at all, whatever
 interferes: the bound exactly for those that are never retried, the ready-at for those and where
 retries are not delayed.
 */
module ClaimBound {
  import opened Wrappers
  import opened Jobs
  import opened QueueState
  import opened Uploads
  import opened CommandSteps
  import opened Places
  import opened Claims
  import opened ReadyTimes
  import opened Interference
  import opened Overtaking

  // ----- A job that is never retried -----

  /** The ids an actor takes on the way to a claim, but for those it promotes. */
  function AheadOf(x: Actor): set<JobId> {
    match x
    case Fetching(id) => {id}
    case Claiming(j) => {j.id}
    case _ => if Submitting(x) then {x.job.id} else {}
  }

  function AheadActors(s: State, id: JobId): set<ActorId> {
    set a | a in s.actors && id in AheadOf(s.actors[a])
  }

  /** How many claims of id are still to come if it is not put into the pending list again. */
  function Ahead(s: State, id: JobId): nat {
    multiset(s.redis.pending)[id] + |AheadActors(s, id)|
  }

  function ActorAhead(r: Redis, x: Actor, id: JobId): nat {
    multiset(r.pending)[id] + One(id in AheadOf(x))
  }

  lemma AheadAt(s: State, id: JobId)
    ensures forall a :: a in AheadActors(s, id) <==> id in AheadOf(At(s, a))
  {
  }

  lemma AheadSplit(s: State, a: ActorId, id: JobId)
    ensures Ahead(s, id) == ActorAhead(s.redis, At(s, a), id) + |AheadActors(s, id) - {a}|
  {
    AheadAt(s, id);
    if a in AheadActors(s, id) { assert |AheadActors(s, id)| == |AheadActors(s, id) - {a}| + 1; }
    else { assert AheadActors(s, id) - {a} == AheadActors(s, id); }
  }

  lemma OthersAhead(c: Config, s: State, e: Event, id: JobId)
    requires !e.Tick?
    ensures AheadActors(Next(c, s, e), id) - {e.a} == AheadActors(s, id) - {e.a}
  {
    OthersStay(c, s, e);
    AheadAt(s, id);
    AheadAt(Next(c, s, e), id);
  }

  /** An actor that will not put id into the delayed set or take it from there. */
  predicate NeverDelays(x: Actor, id: JobId) {
    match x
    case Promoting(due) => id !in due
    case PromotePush(k, due) => k != id && id !in due
    case Delaying(k, _, _) => k != id
    case Saving(j, after) => after.ThenDelay? ==> j.id != id
    case Indexing(j, after) => after.ThenDelay? ==> j.id != id
    case _ => true
  }

  ghost predicate OneClaim(s: State, id: JobId, t: nat) {
    && id !in s.redis.delayed
    && (forall a :: NeverDelays(At(s, a), id))
    && Ahead(s, id) + t <= One(id in s.issued)
  }

  ghost predicate NeverRetried(s: State, id: JobId) {
    id in s.issued ==> s.issued[id].maxRetries == 0
  }

  lemma PromotingAhead(c: Config, s: State, a: ActorId, id: JobId)
    requires At(s, a).Promoting? && NeverDelays(At(s, a), id)
    ensures var s' := Command(c, s, a); ActorAhead(s'.redis, At(s', a), id) <= ActorAhead(s.redis, At(s, a), id)
    ensures NeverDelays(At(Command(c, s, a), a), id)
  {
    if At(s, a).due == [] && s.redis.pending != [] { PopEntries(s.redis, id); }
  }

  lemma PushingAhead(c: Config, s: State, a: ActorId, id: JobId)
    requires (At(s, a).Pushing? || At(s, a).PromotePush?) && NeverDelays(At(s, a), id)
    ensures var s' := Command(c, s, a); ActorAhead(s'.redis, At(s', a), id) <= ActorAhead(s.redis, At(s, a), id)
    ensures NeverDelays(At(Command(c, s, a), a), id)
  {
  }

  lemma ClaimingAhead(c: Config, s: State, a: ActorId, id: JobId)
    requires At(s, a).Fetching? || At(s, a).Claiming?
    requires forall k | k in s.redis.jobs :: s.redis.jobs[k].id == k
    ensures var s' := Command(c, s, a);
            ActorAhead(s'.redis, At(s', a), id) + One(ClaimsJob(s, Advance(a), id)) <= ActorAhead(s.redis, At(s, a), id)
    ensures NeverDelays(At(Command(c, s, a), a), id)
  {
  }

  lemma SaveMoveAhead(c: Config, s: State, a: ActorId, id: JobId)
    requires SaveMove(At(s, a)) && NeverDelays(At(s, a), id)
    ensures var s' := Command(c, s, a); ActorAhead(s'.redis, At(s', a), id) <= ActorAhead(s.redis, At(s, a), id)
    ensures NeverDelays(At(Command(c, s, a), a), id)
  {
  }

  lemma UploadMoveAhead(c: Config, s: State, a: ActorId, id: JobId)
    requires UploadMove(At(s, a))
    ensures var s' := Command(c, s, a); ActorAhead(s'.redis, At(s', a), id) <= ActorAhead(s.redis, At(s, a), id)
    ensures NeverDelays(At(Command(c, s, a), a), id)
  {
    UploadKeepsRedis(c, s, a);
  }

  lemma RetryMoveAhead(c: Config, s: State, a: ActorId, id: JobId)
    requires RetryMove(At(s, a)) && NeverDelays(At(s, a), id) && NeverRetried(s, id) && ActorCopies(s.issued, At(s, a))
    ensures var s' := Command(c, s, a); ActorAhead(s'.redis, At(s', a), id) <= ActorAhead(s.redis, At(s, a), id)
    ensures NeverDelays(At(Command(c, s, a), a), id)
  {
  }

  lemma CommandAhead(c: Config, s: State, a: ActorId, id: JobId)
    requires Copies(s) && NeverRetried(s, id) && NeverDelays(At(s, a), id) && !At(s, a).Idle?
    ensures var s' := Command(c, s, a);
            ActorAhead(s'.redis, At(s', a), id) + One(ClaimsJob(s, Advance(a), id)) <= ActorAhead(s.redis, At(s, a), id)
    ensures NeverDelays(At(Command(c, s, a), a), id)
  {
    var x := At(s, a);
    assert ActorCopies(s.issued, x);
    if x.Promoting? { PromotingAhead(c, s, a, id); }
    else if x.Pushing? || x.PromotePush? { PushingAhead(c, s, a, id); }
    else if QueueMove(x) { ClaimingAhead(c, s, a, id); }
    else if SaveMove(x) { SaveMoveAhead(c, s, a, id); }
    else if UploadMove(x) { UploadMoveAhead(c, s, a, id); }
    else { RetryMoveAhead(c, s, a, id); }
  }

  lemma OutsideAhead(c: Config, s: State, e: Event, id: JobId)
    requires Enabled(c, s, e) && !e.Tick? && !e.Advance? && id !in s.redis.delayed
    ensures var s' := Next(c, s, e);
            ActorAhead(s'.redis, At(s', e.a), id) <= ActorAhead(s.redis, At(s, e.a), id) + One(e.Submit? && e.job.id == id)
    ensures NeverDelays(At(Next(c, s, e), e.a), id)
  {
  }

  lemma DelayedStep(c: Config, s: State, e: Event, id: JobId)
    requires id !in s.redis.delayed && (e.Advance? ==> NeverDelays(At(s, e.a), id))
    ensures id !in Next(c, s, e).redis.delayed
  {
  }

  lemma AheadStep(c: Config, s: State, e: Event, id: JobId, t: nat)
    requires Copies(s) && Enabled(c, s, e) && NeverRetried(s, id) && OneClaim(s, id, t)
    ensures Ahead(Next(c, s, e), id) + t + One(ClaimsJob(s, e, id)) <= One(id in Next(c, s, e).issued)
    ensures forall a :: NeverDelays(At(Next(c, s, e), a), id)
  {
    IssuedStep(c, s, e);
    OthersStay(c, s, e);
    if e.Tick? {
      assert AheadActors(Next(c, s, e), id) == AheadActors(s, id);
      assert forall a :: At(Next(c, s, e), a) == At(s, a);
    } else {
      AheadSplit(s, e.a, id);
      AheadSplit(Next(c, s, e), e.a, id);
      OthersAhead(c, s, e, id);
      assert NeverDelays(At(s, e.a), id);
      if e.Advance? { CommandAhead(c, s, e.a, id); } else { OutsideAhead(c, s, e, id); }
      forall a ensures NeverDelays(At(Next(c, s, e), a), id) { assert NeverDelays(At(s, a), id); }
    }
  }

  lemma OneClaimStep(c: Config, s: State, e: Event, id: JobId, t: nat)
    requires Copies(s) && Enabled(c, s, e) && NeverRetried(s, id) && OneClaim(s, id, t)
    ensures OneClaim(Next(c, s, e), id, t + One(ClaimsJob(s, e, id)))
  {
    AheadStep(c, s, e, id, t);
    if e.Advance? { assert NeverDelays(At(s, e.a), id); }
    DelayedStep(c, s, e, id);
  }

  /** What has been issued stays issued. */
  lemma {:induction false} IssuedRun(c: Config, s: State, es: seq<Event>, id: JobId)
    requires Valid(c, s, es) && id in s.issued
    ensures id in Run(c, s, es).issued && Run(c, s, es).issued[id] == s.issued[id]
    decreases es
  {
    if es != [] {
      IssuedStep(c, s, es[0]);
      IssuedRun(c, Next(c, s, es[0]), es[1..], id);
    }
  }

  lemma {:induction false} OneClaimRun(c: Config, s: State, es: seq<Event>, id: JobId, t: nat)
    requires Copies(s) && Valid(c, s, es) && NeverRetried(Run(c, s, es), id) && OneClaim(s, id, t)
    ensures t + ClaimCount(c, s, es, id) <= 1
    decreases es
  {
    if id in s.issued { IssuedRun(c, s, es, id); }
    if es != [] {
      CopiesStep(c, s, es[0]);
      OneClaimStep(c, s, es[0], id, t);
      OneClaimRun(c, Next(c, s, es[0]), es[1..], id, t + One(ClaimsJob(s, es[0], id)));
    }
  }

  /** A job that allows no retry is claimed at most once, whatever interferes. */
  lemma ClaimedOnce(c: Config, store: Store, es: seq<Event>, id: JobId)
    requires Valid(c, Initial(store), es) && NeverRetried(Run(c, Initial(store), es), id)
    ensures ClaimCount(c, Initial(store), es, id) <= 1
  {
    assert AheadActors(Initial(store), id) == {};
    OneClaimRun(c, Initial(store), es, id, 0);
  }

  /** Every run in which j is issued claims it at most `maxRetries + 1` times. */
  ghost predicate AlwaysBounded(c: Config, store: Store, j: Job) {
    forall es | Valid(c, Initial(store), es) && Issues(Run(c, Initial(store), es), j) ::
      ClaimCount(c, Initial(store), es, j.id) <= j.maxRetries + 1
  }

  ghost predicate Issues(s: State, j: Job) {
    j.id in s.issued && s.issued[j.id] == j
  }

  /** The bound holds of a job in every run if and only if the job is never retried. */
  lemma BoundHoldsExactly(c: Config, store: Store, j: Job)
    requires Jobs.Fresh(j) && j.productId !in store.images && j.productId !in store.texts
    ensures AlwaysBounded(c, store, j) <==> j.maxRetries == 0
  {
    if j.maxRetries == 0 {
      forall es | Valid(c, Initial(store), es) && Issues(Run(c, Initial(store), es), j)
        ensures ClaimCount(c, Initial(store), es, j.id) <= j.maxRetries + 1
      {
        ClaimedOnce(c, store, es, j.id);
      }
    } else {
      SlowWorkersClaimOften(c, store, j, j.maxRetries + 1);
      var es :| Valid(c, Initial(store), es) && ClaimCount(c, Initial(store), es, j.id) == j.maxRetries + 2
                && Run(c, Initial(store), es).issued == map[j.id := j];
      assert Issues(Run(c, Initial(store), es), j);
    }
  }

  // ----- The ready-at -----

  /** A job that is never retried is never scheduled. */
  lemma {:induction false} NeverScheduled(c: Config, s: State, es: seq<Event>, id: JobId, t: nat)
    requires Copies(s) && Valid(c, s, es) && NeverRetried(Run(c, s, es), id) && OneClaim(s, id, t)
    ensures NeverEarly(c, s, es, id, None)
    decreases es
  {
    if id in s.issued { IssuedRun(c, s, es, id); }
    if es != [] {
      CopiesStep(c, s, es[0]);
      OneClaimStep(c, s, es[0], id, t);
      if es[0].Advance? { assert NeverDelays(At(s, es[0].a), id); }
      NeverScheduled(c, Next(c, s, es[0]), es[1..], id, t + One(ClaimsJob(s, es[0], id)));
    }
  }

  /** An actor that is to schedule a retry for a time that has come already. */
  predicate SchedulesPast(x: Actor, now: Time) {
    match x
    case Saving(_, after) => after.ThenDelay? ==> after.readyAt <= now
    case Indexing(_, after) => after.ThenDelay? ==> after.readyAt <= now
    case Delaying(_, readyAt, _) => readyAt <= now
    case _ => true
  }

  ghost predicate AllPast(s: State) {
    forall a :: SchedulesPast(At(s, a), s.clock)
  }

  lemma BackoffNotPositive(base: real, retries: nat)
    requires base <= 0.0 && retries >= 1
    ensures Backoff(base, retries) <= 0.0
  {
    var q := Power2(retries - 1) as real;
    assert base * q <= 0.0;
  }

  lemma ActingPast(c: Config, s: State, a: ActorId)
    requires c.base <= 0.0 && SchedulesPast(At(s, a), s.clock)
    ensures SchedulesPast(At(Command(c, s, a), a), s.clock) && Command(c, s, a).clock == s.clock
  {
    if At(s, a).Releasing? { BackoffNotPositive(c.base, Retried(At(s, a).job, At(s, a).error).retryCount); }
    if UploadMove(At(s, a)) { UploadKeepsRedis(c, s, a); }
  }

  lemma PastStep(c: Config, s: State, e: Event)
    requires c.base <= 0.0 && Enabled(c, s, e) && AllPast(s)
    ensures AllPast(Next(c, s, e))
  {
    var s' := Next(c, s, e);
    OthersStay(c, s, e);
    ClockAfter(c, s, e);
    if e.Advance? { ActingPast(c, s, e.a); }
    forall a ensures SchedulesPast(At(s', a), s'.clock) { assert SchedulesPast(At(s, a), s.clock); }
  }

  /** Without a delay every retry is due at once. */
  lemma {:induction false} NoDelayNeverEarly(c: Config, s: State, es: seq<Event>, id: JobId, last: Option<Time>)
    requires c.base <= 0.0 && Valid(c, s, es) && AllPast(s) && (last.Some? ==> last.value <= s.clock)
    ensures NeverEarly(c, s, es, id, last)
    decreases es
  {
    if es != [] {
      PastStep(c, s, es[0]);
      ClockAfter(c, s, es[0]);
      if es[0].Advance? { assert SchedulesPast(At(s, es[0].a), s.clock); }
      NoDelayNeverEarly(c, Next(c, s, es[0]), es[1..], id, Scheduled(s, es[0], id, last));
    }
  }

  /** No run in which j is issued claims it before the ready-at last scheduled for it. */
  ghost predicate AlwaysOnTime(c: Config, store: Store, j: Job) {
    forall es | Valid(c, Initial(store), es) && Issues(Run(c, Initial(store), es), j) ::
      NeverEarly(c, Initial(store), es, j.id, None)
  }

  /** Every run waits for the ready-at if and only if the job is never retried or retries are not delayed. */
  lemma ReadyAtHoldsExactly(c: Config, store: Store, j: Job)
    requires Jobs.Fresh(j) && j.productId !in store.images && j.productId !in store.texts
    ensures AlwaysOnTime(c, store, j) <==> j.maxRetries == 0 || c.base <= 0.0
  {
    if j.maxRetries == 0 || c.base <= 0.0 {
      forall es | Valid(c, Initial(store), es) && Issues(Run(c, Initial(store), es), j)
        ensures NeverEarly(c, Initial(store), es, j.id, None)
      {
        if j.maxRetries == 0 {
          assert AheadActors(Initial(store), j.id) == {};
          NeverScheduled(c, Initial(store), es, j.id, 0);
        } else {
          NoDelayNeverEarly(c, Initial(store), es, j.id, None);
        }
      }
    } else {
      RunsClaimEarly(c, store, j);
      var es :| Valid(c, Initial(store), es) && !NeverEarly(c, Initial(store), es, j.id, None)
                && Run(c, Initial(store), es).issued == map[j.id := j];
      assert Issues(Run(c, Initial(store), es), j);
    }
  }
}
