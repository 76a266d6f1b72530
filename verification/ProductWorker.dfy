/**
 One attempt at one job (backend/app/workers/product_worker.py): dequeue, report checkpoints,
 upload, then complete or fail -- and its place in the protocol of `Lifecycle`.
 */
module ProductWorkers {
  import opened Wrappers
  import opened Jobs
  import opened QueueState
  import opened Uploads
  import opened RedisQueues
  import Lifecycle

  /** What may go wrong in an attempt from outside: a payload that does not parse, or an interrupted upload. */
  datatype Trouble = BadPayload | UploadCut(at: Interruption)

  function CutOf(trouble: Option<Trouble>): Option<Interruption> {
    match trouble
    case Some(UploadCut(at)) => Some(at)
    case _ => None
  }

  const PARSE_ERROR := "The job payload is not valid."

  class ProductWorker {
    const queue: RedisQueue
    const service: ProductService

    constructor (queue: RedisQueue, service: ProductService)
      ensures this.queue == queue && this.service == service
    {
      this.queue, this.service := queue, service;
    }

    method ReportProgress(job: LiveJob, progress: nat, stage: string)
      modifies queue, job
      ensures job.Dump() == Reported(old(job.Dump()), progress, stage)
      ensures queue.View() == Save(old(queue.View()), job.Dump())
      ensures job.progress == progress && job.stage == stage && job.status == old(job.status) && job.history == old(job.history)
      ensures job.retryCount == old(job.retryCount) && queue.jobs == old(queue.jobs)[job.id := job.Dump()]
    {
      job.progress := progress;
      job.stage := stage;
      queue.Update(job);
    }

    method Complete(job: LiveJob, attempt: nat)
      requires attempt == job.retryCount + 1
      modifies queue, job
      ensures job.Dump() == CompletedAttempt(old(job.Dump()))
      ensures queue.View() == QueueState.Ack(Save(old(queue.View()), job.Dump()), job.id)
      ensures job.status == COMPLETED && job.progress == 100 && job.stage == "Completed" && job.error == None
      ensures job.history == old(job.history) + [JobResult(old(job.retryCount) + 1, true, None)] && job.retryCount == old(job.retryCount)
      ensures queue.processing == old(queue.processing) - {job.id} && queue.jobs == old(queue.jobs)[job.id := job.Dump()]
    {
      job.status := COMPLETED;
      job.progress := 100;
      job.stage := FINISHED;
      job.error := None;
      job.history := job.history + [JobResult(attempt, true, None)];
      queue.Update(job);
      queue.Ack(job);
    }

    method Fail(job: LiveJob, attempt: nat, error: string, now: Time)
      requires attempt == job.retryCount + 1
      modifies queue, job
      ensures queue.View() == QueueState.Retry(old(queue.View()), FailedAttempt(old(job.Dump()), error), error, queue.retryDelay, now)
      ensures job.history == old(job.history) + [JobResult(old(job.retryCount) + 1, false, Some(error))]
      ensures job.retryCount == old(job.retryCount) + 1 && job.error == Some(error) && queue.jobs == old(queue.jobs)[job.id := job.Dump()]
    {
      job.history := job.history + [JobResult(attempt, false, Some(error))];
      queue.Retry(job, error, now);
    }

    /**
     The clock is read to promote, to claim and, if the attempt fails, to schedule the retry. The result of the
     upload is returned as a ghost, to say which way the attempt went.
     */
    method ProcessOne(now: Time, claimedAt: Time, failedAt: Time, trouble: Option<Trouble>) returns (processed: bool, ghost r: Result<ProductId, Failure>)
      requires forall id | id in queue.jobs :: queue.jobs[id].id == id
      modifies queue, service
      ensures var (dequeued, got) := QueueState.Dequeue(old(queue.View()), now, claimedAt);
              match got
              case None => !processed && queue.View() == dequeued && service.store == old(service.store)
              case Some(j) =>
                && processed
                && (trouble == Some(BadPayload) ==>
                      service.store == old(service.store) && queue.View() == AfterBadPayload(dequeued, j, queue.retryDelay, failedAt))
                && (trouble != Some(BadPayload) ==>
                      && service.store == AttemptEffect(service.svc, service.mode, j.payload, j.productId, old(service.store), CutOf(trouble))
                      && (r.Ok? <==> AttemptSucceeds(service.svc, service.mode, j.payload, old(service.store), CutOf(trouble)))
                      && queue.View() == match r
                                         case Ok(_) => AfterSuccess(dequeued, j)
                                         case Err(e) => AfterFailure(dequeued, j, Message(e), queue.retryDelay, failedAt))
    {
      r := Ok(0);
      var job := queue.Dequeue(now, claimedAt);
      if job == null {
        return false, r;
      }
      var attempt := job.retryCount + 1;
      processed := true;
      ReportProgress(job, 10, VALIDATING);
      if trouble == Some(BadPayload) {
        Fail(job, attempt, PARSE_ERROR, failedAt);
        return;
      }
      ReportProgress(job, 40, PROCESSING);
      var uploaded := service.ProcessUpload(job.payload, job.productId, CutOf(trouble));
      r := uploaded;
      if uploaded.Err? {
        Fail(job, attempt, Message(uploaded.error), failedAt);
        return;
      }
      ReportProgress(job, 80, CACHING);
      Complete(job, attempt);
    }
  }

  function Checkpoint10(j: Job): Job { Reported(j, 10, VALIDATING) }
  function Checkpoint40(j: Job): Job { Reported(Checkpoint10(j), 40, PROCESSING) }
  function Checkpoint80(j: Job): Job { Reported(Checkpoint40(j), 80, CACHING) }

  function AfterBadPayload(r: Redis, j: Job, base: real, now: Time): Redis {
    QueueState.Retry(Save(r, Checkpoint10(j)), FailedAttempt(Checkpoint10(j), PARSE_ERROR), PARSE_ERROR, base, now)
  }

  function AfterFailure(r: Redis, j: Job, error: string, base: real, now: Time): Redis {
    QueueState.Retry(Save(Save(r, Checkpoint10(j)), Checkpoint40(j)), FailedAttempt(Checkpoint40(j), error), error, base, now)
  }

  function AfterSuccess(r: Redis, j: Job): Redis {
    var saved := Save(Save(Save(r, Checkpoint10(j)), Checkpoint40(j)), Checkpoint80(j));
    QueueState.Ack(Save(saved, CompletedAttempt(Checkpoint80(j))), j.id)
  }

  // ----- An attempt is a run of the protocol -----

  /** The protocol steps of the rest of an attempt after its dequeue. */
  function AttemptSteps(w: Lifecycle.WorkerId, failure: Option<string>): seq<Lifecycle.Event> {
    match failure
    case Some(error) => [Lifecycle.Report(w, 10, VALIDATING), Lifecycle.Report(w, 40, PROCESSING), Lifecycle.Fail(w, error)]
    case None => [Lifecycle.Report(w, 10, VALIDATING), Lifecycle.Report(w, 40, PROCESSING), Lifecycle.Report(w, 80, CACHING),
                  Lifecycle.Finish(w), Lifecycle.Settle(w)]
  }

  lemma ReportStep(p: Lifecycle.Policy, s: Lifecycle.System, w: Lifecycle.WorkerId, progress: nat, stage: string, rest: seq<Lifecycle.Event>)
    requires w in s.live && s.live[w].status == RUNNING
    ensures var j := Reported(s.live[w], progress, stage); var s1 := s.(redis := Save(s.redis, j), live := s.live[w := j]);
            var es := [Lifecycle.Report(w, progress, stage)] + rest;
            && Lifecycle.Next(p, s, Lifecycle.Report(w, progress, stage)) == s1
            && Lifecycle.Run(p, s, es) == Lifecycle.Run(p, s1, rest)
            && (Lifecycle.Valid(p, s1, rest) ==> Lifecycle.Valid(p, s, es))
  {
    assert ([Lifecycle.Report(w, progress, stage)] + rest)[1..] == rest;
  }

  lemma FailedTail(p: Lifecycle.Policy, s: Lifecycle.System, w: Lifecycle.WorkerId, error: string)
    requires w in s.live && s.live[w].status == RUNNING
    ensures var es := [Lifecycle.Fail(w, error)];
            Lifecycle.Valid(p, s, es) && Lifecycle.Run(p, s, es) == Lifecycle.Next(p, s, Lifecycle.Fail(w, error))
  {
    assert [Lifecycle.Fail(w, error)][1..] == [];
  }

  lemma FinishedTail(p: Lifecycle.Policy, s: Lifecycle.System, w: Lifecycle.WorkerId)
    requires w in s.live && s.live[w].status == RUNNING
    ensures var es := [Lifecycle.Finish(w), Lifecycle.Settle(w)]; var j := CompletedAttempt(s.live[w]);
            && Lifecycle.Valid(p, s, es)
            && Lifecycle.Run(p, s, es).redis == QueueState.Ack(Save(s.redis, j), j.id)
  {
    var s1 := Lifecycle.Next(p, s, Lifecycle.Finish(w));
    assert [Lifecycle.Finish(w), Lifecycle.Settle(w)][1..] == [Lifecycle.Settle(w)];
    assert [Lifecycle.Settle(w)][1..] == [];
    var s2 := Lifecycle.Next(p, s1, Lifecycle.Settle(w));
    assert Lifecycle.Run(p, s1, [Lifecycle.Settle(w)]) == s2;
  }

  /** A successful attempt leaves the queue exactly as the protocol steps report, report, report, finish, settle. */
  lemma SuccessIsARun(p: Lifecycle.Policy, s: Lifecycle.System, w: Lifecycle.WorkerId)
    requires w in s.live && s.live[w].status == RUNNING
    ensures Lifecycle.Valid(p, s, AttemptSteps(w, None))
    ensures Lifecycle.Run(p, s, AttemptSteps(w, None)).redis == AfterSuccess(s.redis, s.live[w])
  {
    var j := s.live[w];
    var tail := [Lifecycle.Finish(w), Lifecycle.Settle(w)];
    var s1 := s.(redis := Save(s.redis, Checkpoint10(j)), live := s.live[w := Checkpoint10(j)]);
    var s2 := s1.(redis := Save(s1.redis, Checkpoint40(j)), live := s1.live[w := Checkpoint40(j)]);
    var s3 := s2.(redis := Save(s2.redis, Checkpoint80(j)), live := s2.live[w := Checkpoint80(j)]);
    FinishedTail(p, s3, w);
    ReportStep(p, s2, w, 80, CACHING, tail);
    ReportStep(p, s1, w, 40, PROCESSING, [Lifecycle.Report(w, 80, CACHING)] + tail);
    ReportStep(p, s, w, 10, VALIDATING, [Lifecycle.Report(w, 40, PROCESSING)] + ([Lifecycle.Report(w, 80, CACHING)] + tail));
    assert AttemptSteps(w, None)
        == [Lifecycle.Report(w, 10, VALIDATING)] + ([Lifecycle.Report(w, 40, PROCESSING)] + ([Lifecycle.Report(w, 80, CACHING)] + tail));
  }

  /** A failed attempt leaves the queue exactly as the protocol steps report, report, fail. */
  lemma FailureIsARun(p: Lifecycle.Policy, s: Lifecycle.System, w: Lifecycle.WorkerId, error: string)
    requires w in s.live && s.live[w].status == RUNNING
    ensures Lifecycle.Valid(p, s, AttemptSteps(w, Some(error)))
    ensures Lifecycle.Run(p, s, AttemptSteps(w, Some(error))).redis == AfterFailure(s.redis, s.live[w], error, p.base, s.clock)
  {
    var j := s.live[w];
    var tail := [Lifecycle.Fail(w, error)];
    var s1 := s.(redis := Save(s.redis, Checkpoint10(j)), live := s.live[w := Checkpoint10(j)]);
    var s2 := s1.(redis := Save(s1.redis, Checkpoint40(j)), live := s1.live[w := Checkpoint40(j)]);
    FailedTail(p, s2, w, error);
    ReportStep(p, s1, w, 40, PROCESSING, tail);
    ReportStep(p, s, w, 10, VALIDATING, [Lifecycle.Report(w, 40, PROCESSING)] + tail);
    assert AttemptSteps(w, Some(error)) == [Lifecycle.Report(w, 10, VALIDATING)] + ([Lifecycle.Report(w, 40, PROCESSING)] + tail);
  }

  /** An attempt at an unreadable payload leaves the queue exactly as the protocol steps report, fail. */
  lemma BadPayloadIsARun(p: Lifecycle.Policy, s: Lifecycle.System, w: Lifecycle.WorkerId)
    requires w in s.live && s.live[w].status == RUNNING
    ensures var es := [Lifecycle.Report(w, 10, VALIDATING), Lifecycle.Fail(w, PARSE_ERROR)];
            Lifecycle.Valid(p, s, es) && Lifecycle.Run(p, s, es).redis == AfterBadPayload(s.redis, s.live[w], p.base, s.clock)
  {
    var j := s.live[w];
    var tail := [Lifecycle.Fail(w, PARSE_ERROR)];
    var s1 := s.(redis := Save(s.redis, Checkpoint10(j)), live := s.live[w := Checkpoint10(j)]);
    FailedTail(p, s1, w, PARSE_ERROR);
    ReportStep(p, s, w, 10, VALIDATING, tail);
    assert [Lifecycle.Report(w, 10, VALIDATING), Lifecycle.Fail(w, PARSE_ERROR)] == [Lifecycle.Report(w, 10, VALIDATING)] + tail;
  }

  /** From the dequeue on: an attempt of a free worker leaves the queue as `ProcessOne` does. */
  lemma AttemptIsARun(p: Lifecycle.Policy, s: Lifecycle.System, w: Lifecycle.WorkerId, failure: Option<string>)
    requires w !in s.live
    ensures var (r, got) := QueueState.Dequeue(s.redis, s.clock, s.clock); var es := [Lifecycle.Take(w)] + AttemptSteps(w, failure);
            got.Some? ==>
              Lifecycle.Valid(p, s, es)
              && Lifecycle.Run(p, s, es).redis == match failure
                                                  case None => AfterSuccess(r, got.value)
                                                  case Some(error) => AfterFailure(r, got.value, error, p.base, s.clock)
  {
    var s1 := Lifecycle.Next(p, s, Lifecycle.Take(w));
    assert ([Lifecycle.Take(w)] + AttemptSteps(w, failure))[1..] == AttemptSteps(w, failure);
    Lifecycle.TakeIsDequeue(p, s, w);
    if QueueState.Dequeue(s.redis, s.clock, s.clock).1.Some? {
      match failure
      case None => SuccessIsARun(p, s1, w);
      case Some(error) => FailureIsARun(p, s1, w, error);
    }
  }
}
