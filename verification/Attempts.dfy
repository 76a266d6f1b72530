/**
 The attempt numbers in a job's retry history, one command at a time. They go up as long as no
 worker is given a job whose record says COMPLETED already; this module has that, exactly.
 */
module Attempts {
  import opened Wrappers
  import opened Jobs
  import opened QueueState
  import opened Uploads
  import opened CommandSteps
  import opened Places
  import opened Claims

  predicate Rising(h: seq<JobResult>) {
    forall i, k | 0 <= i < k < |h| :: h[i].attempt < h[k].attempt
  }

  predicate UpTo(h: seq<JobResult>, n: nat) {
    forall i | 0 <= i < |h| :: 1 <= h[i].attempt <= n
  }

  /** Some attempt number stands twice. */
  predicate Repeats(h: seq<JobResult>) {
    exists i, k | 0 <= i < k < |h| :: h[i].attempt == h[k].attempt
  }

  /** Numbers go up and none is beyond the attempts made; a COMPLETED job shows its last attempt. */
  predicate Numbered(j: Job) {
    && Rising(j.history)
    && UpTo(j.history, j.retryCount + if j.status == COMPLETED then 1 else 0)
    && (j.status == COMPLETED ==> j.history != [] && j.history[|j.history| - 1].attempt == j.retryCount + 1)
  }

  /** As `retry` finds a job: with the attempt that has just ended, or without. */
  predicate Ended(j: Job) {
    Rising(j.history) && UpTo(j.history, j.retryCount + 1)
  }

  /** The number of the attempt a worker makes of the record it was given is new, unless that says COMPLETED. */
  lemma NumberRepeatsExactly(j: Job, error: string)
    requires Numbered(j)
    ensures Repeats(FailedAttempt(Started(j), error).history) <==> j.status == COMPLETED
    ensures Repeats(CompletedAttempt(Started(j)).history) <==> j.status == COMPLETED
  {
    var n := |j.history|;
    var f, d := FailedAttempt(Started(j), error).history, CompletedAttempt(Started(j)).history;
    if j.status == COMPLETED {
      assert f[n - 1].attempt == f[n].attempt && d[n - 1].attempt == d[n].attempt;
    } else {
      forall i, k | 0 <= i < k < |f| ensures f[i].attempt < f[k].attempt && d[i].attempt < d[k].attempt {
        assert f[i] == d[i] == j.history[i];
        if k < n { assert f[k] == d[k] == j.history[k]; }
      }
    }
  }

  /** In the course of an attempt: after the claim is in memory and before the attempt is in the history. */
  predicate Attempting(x: Actor) {
    || ((x.Saving? || x.Indexing?) && (x.after.ThenValidate? || x.after.ThenProcess? || x.after.ThenUpload? || x.after.ThenComplete?))
    || UploadMove(x)
  }

  predicate ActorNumbered(x: Actor, id: JobId) {
    Carries(x, id) ==>
      if x.Releasing? then Ended(x.job)
      else Numbered(Carried(x).value) && (Attempting(x) ==> x.job.status == RUNNING)
  }

  /** Every copy of the job, stored or in memory, is numbered as it should be. */
  ghost predicate AllNumbered(s: State, id: JobId) {
    (id in s.redis.jobs ==> Numbered(s.redis.jobs[id])) && (forall a :: ActorNumbered(At(s, a), id))
  }

  /** A worker is given a job whose record says COMPLETED. */
  predicate Reopens(s: State, e: Event, id: JobId) {
    ClaimsJob(s, e, id) && At(s, e.a).job.status == COMPLETED
  }

  // ----- What one step does -----

  ghost predicate ActingNumbered(s': State, a: ActorId, id: JobId) {
    (id in s'.redis.jobs ==> Numbered(s'.redis.jobs[id])) && ActorNumbered(At(s', a), id)
  }

  lemma AppendKeeps(j: Job, error: string)
    requires Numbered(j) && j.status == RUNNING
    ensures Ended(FailedAttempt(j, error)) && Numbered(CompletedAttempt(j))
  {
  }

  lemma RetriedKeeps(j: Job, error: string)
    requires Ended(j)
    ensures Numbered(Retried(j, error))
  {
  }

  lemma ContinueNumbered(j: Job, after: After, id: JobId)
    requires Numbered(j) && (Attempting(Indexing(j, after)) ==> j.status == RUNNING)
    ensures ActorNumbered(Continue(j, after), id)
  {
    if after.ThenComplete? { AppendKeeps(j, ""); }
  }

  lemma ClaimNumbered(c: Config, s: State, a: ActorId, id: JobId)
    requires AllNumbered(s, id) && At(s, a).Claiming?
    ensures ActingNumbered(Command(c, s, a), a, id) <==> !(At(s, a).job.id == id && At(s, a).job.status == COMPLETED)
  {
    assert ActorNumbered(At(s, a), id);
    var j := At(s, a).job;
    if j.id == id && j.status == COMPLETED {
      assert Started(j).history[|j.history| - 1].attempt == j.retryCount + 1;
    }
  }

  lemma QueueMoveNumbered(c: Config, s: State, a: ActorId, id: JobId)
    requires AllNumbered(s, id) && QueueMove(At(s, a)) && !At(s, a).Claiming?
    requires forall k | k in s.redis.jobs :: s.redis.jobs[k].id == k
    ensures ActingNumbered(Command(c, s, a), a, id)
  {
  }

  lemma SaveMoveNumbered(c: Config, s: State, a: ActorId, id: JobId)
    requires AllNumbered(s, id) && SaveMove(At(s, a))
    ensures ActingNumbered(Command(c, s, a), a, id)
  {
    var x := At(s, a);
    assert ActorNumbered(x, id);
    if x.Indexing? && x.job.id == id { ContinueNumbered(x.job, x.after, id); }
  }

  lemma UploadMoveNumbered(c: Config, s: State, a: ActorId, id: JobId)
    requires AllNumbered(s, id) && UploadMove(At(s, a))
    ensures ActingNumbered(Command(c, s, a), a, id)
  {
    var x := At(s, a);
    assert ActorNumbered(x, id);
    if x.job.id == id {
      forall error: string ensures Ended(FailedAttempt(x.job, error)) { AppendKeeps(x.job, error); }
    }
  }

  lemma ReleasingNumbered(c: Config, s: State, a: ActorId, id: JobId)
    requires AllNumbered(s, id) && At(s, a).Releasing?
    ensures ActingNumbered(Command(c, s, a), a, id)
  {
    var x := At(s, a);
    assert ActorNumbered(x, id);
    if x.job.id == id { RetriedKeeps(x.job, x.error); }
  }

  lemma RetryMoveNumbered(c: Config, s: State, a: ActorId, id: JobId)
    requires AllNumbered(s, id) && RetryMove(At(s, a)) && !At(s, a).Releasing?
    requires forall k | k in s.redis.jobs :: s.redis.jobs[k].id == k
    ensures ActingNumbered(Command(c, s, a), a, id)
  {
    RetryKeepsRecords(c, s, a);
  }

  lemma OutsideNumbered(c: Config, s: State, e: Event, id: JobId)
    requires AllNumbered(s, id) && Enabled(c, s, e) && !e.Tick? && !e.Advance?
    ensures ActingNumbered(Next(c, s, e), e.a, id)
  {
    var x := At(s, e.a);
    assert ActorNumbered(x, id);
    if e.Fail? && x.job.id == id { AppendKeeps(x.job, e.error); }
  }

  lemma ActingStep(c: Config, s: State, e: Event, id: JobId)
    requires Copies(s) && AllNumbered(s, id) && Enabled(c, s, e) && !e.Tick?
    ensures ActingNumbered(Next(c, s, e), e.a, id) <==> !Reopens(s, e, id)
  {
    if !e.Advance? { OutsideNumbered(c, s, e, id); }
    else if At(s, e.a).Claiming? { ClaimNumbered(c, s, e.a, id); }
    else if QueueMove(At(s, e.a)) { QueueMoveNumbered(c, s, e.a, id); }
    else if SaveMove(At(s, e.a)) { SaveMoveNumbered(c, s, e.a, id); }
    else if UploadMove(At(s, e.a)) { UploadMoveNumbered(c, s, e.a, id); }
    else if At(s, e.a).Releasing? { ReleasingNumbered(c, s, e.a, id); }
    else { RetryMoveNumbered(c, s, e.a, id); }
  }

  /** A step spoils the numbering exactly when it gives a worker a job whose record says COMPLETED. */
  lemma NumberingLostExactly(c: Config, s: State, e: Event, id: JobId)
    requires Copies(s) && AllNumbered(s, id) && Enabled(c, s, e)
    ensures !AllNumbered(Next(c, s, e), id) <==> Reopens(s, e, id)
  {
    var s' := Next(c, s, e);
    OthersStay(c, s, e);
    if e.Tick? {
      assert forall a :: At(s', a) == At(s, a);
    } else {
      ActingStep(c, s, e, id);
      if AllNumbered(s', id) {
        assert ActingNumbered(s', e.a, id);
      } else if ActingNumbered(s', e.a, id) {
        forall a ensures ActorNumbered(At(s', a), id) { assert ActorNumbered(At(s, a), id); }
      }
    }
  }

  // ----- Runs -----

  ghost predicate AlwaysNumbered(c: Config, s: State, es: seq<Event>, id: JobId)
    decreases es
  {
    AllNumbered(s, id) && (es == [] || AlwaysNumbered(c, Next(c, s, es[0]), es[1..], id))
  }

  ghost predicate NeverReopens(c: Config, s: State, es: seq<Event>, id: JobId)
    decreases es
  {
    es == [] || (!Reopens(s, es[0], id) && NeverReopens(c, Next(c, s, es[0]), es[1..], id))
  }

  lemma {:induction false} NumberedRun(c: Config, s: State, es: seq<Event>, id: JobId)
    requires Copies(s) && Valid(c, s, es) && AllNumbered(s, id)
    ensures AlwaysNumbered(c, s, es, id) <==> NeverReopens(c, s, es, id)
    decreases es
  {
    if es != [] {
      CopiesStep(c, s, es[0]);
      NumberingLostExactly(c, s, es[0], id);
      if !Reopens(s, es[0], id) { NumberedRun(c, Next(c, s, es[0]), es[1..], id); }
    }
  }

  /** All along a run the attempt numbers of a job go up if and only if no worker is given its COMPLETED record. */
  lemma NumberedExactly(c: Config, store: Store, es: seq<Event>, id: JobId)
    requires Valid(c, Initial(store), es)
    ensures AlwaysNumbered(c, Initial(store), es, id) <==> NeverReopens(c, Initial(store), es, id)
  {
    InvInitial(c, store);
    NumberedRun(c, Initial(store), es, id);
  }

  lemma PacedNeverReopens(s: State, e: Event, id: JobId, t: nat)
    requires Paced(s, id, t)
    ensures !Reopens(s, e, id)
  {
    if e.Advance? { assert ActorPaced(s.redis, id, t, At(s, e.a)); }
  }

  lemma {:induction false} CarefulNeverReopens(c: Config, before: Store, s: State, es: seq<Event>, id: JobId, t: nat)
    requires Inv(c, before, s) && Valid(c, s, es) && Paced(s, id, t) && AllCareful(c, s, es, id)
    ensures NeverReopens(c, s, es, id)
    decreases es
  {
    if es != [] {
      InvStep(c, before, s, es[0]);
      PacedStep(c, before, s, es[0], id, t);
      PacedNeverReopens(s, es[0], id, t);
      CarefulNeverReopens(c, before, Next(c, s, es[0]), es[1..], id, t + One(ClaimsJob(s, es[0], id)));
    }
  }

  /** In a run that is careful about a job its attempt numbers go up all along. */
  lemma CarefulAttemptsIncrease(c: Config, store: Store, es: seq<Event>, id: JobId)
    requires Valid(c, Initial(store), es) && AllCareful(c, Initial(store), es, id)
    ensures AlwaysNumbered(c, Initial(store), es, id)
  {
    InvInitial(c, store);
    InitialPaced(store, id);
    CarefulNeverReopens(c, store, Initial(store), es, id, 0);
    NumberedExactly(c, store, es, id);
  }
}
