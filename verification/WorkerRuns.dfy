/**
 What a worker does with a job it was given, run alone command by command, is what
 `ProductWorkers.ProductWorker.ProcessOne` does to the queue and to the collections.
 */
module WorkerRuns {
  import opened Wrappers
  import opened Jobs
  import opened QueueState
  import opened Uploads
  import opened CommandSteps
  import opened CommandRuns
  import opened ProductWorkers

  /** One more save: n commands before it, two for it. */
  lemma SaveNext(c: Config, s: State, a: ActorId, n: nat, r: Redis, j: Job, after: After)
    requires Solo(c, s, a, n) == With(s, a, r, Saving(j, after)) && !after.ThenAck?
    ensures Solo(c, s, a, n + 2) == With(s, a, Save(r, j), Continue(j, after))
  {
    SoloThen(c, s, a, n, 2);
    var s1 := With(s, a, r, Saving(j, after));
    SaveAlone(c, s1, a, j, after);
    WithWith(s, a, r, Saving(j, after), Save(r, j), Continue(j, after));
  }

  /** The two checkpoints before the upload, four commands in all. */
  lemma CheckpointsAlone(c: Config, s: State, a: ActorId, j: Job)
    requires At(s, a) == AfterDequeue(Some(j))
    ensures Solo(c, s, a, 4) == With(s, a, Save(Save(s.redis, Checkpoint10(j)), Checkpoint40(j)), Uploading(Checkpoint40(j)))
  {
    var x := AfterDequeue(Some(j));
    assert s.actors[a := x] == s.actors by { assert a in s.actors; }
    assert s == With(s, a, s.redis, x);
    SaveNext(c, s, a, 0, s.redis, Checkpoint10(j), ThenProcess);
    SaveNext(c, s, a, 2, Save(s.redis, Checkpoint10(j)), Checkpoint40(j), ThenUpload);
  }

  /** An upload that fails: nine commands leave the queue as a failed attempt does, and the collections as they were. */
  lemma FailureAlone(c: Config, s: State, a: ActorId, j: Job)
    requires At(s, a) == AfterDequeue(Some(j)) && Prepare(c.svc, c.mode, j.payload, s.store).Err?
    ensures var e := Prepare(c.svc, c.mode, j.payload, s.store).error;
            Solo(c, s, a, 9) == With(s, a, AfterFailure(s.redis, j, Message(e), c.base, s.clock), Idle)
  {
    var r := Save(Save(s.redis, Checkpoint10(j)), Checkpoint40(j));
    var x := Uploading(Checkpoint40(j));
    var error := Message(Prepare(c.svc, c.mode, j.payload, s.store).error);
    var failed := FailedAttempt(Checkpoint40(j), error);
    var y := Releasing(failed, error, []);
    CheckpointsAlone(c, s, a, j);
    SoloThen(c, s, a, 4, 5);
    var s1 := With(s, a, r, x);
    WithWith(s, a, r, x, r, y);
    OneThen(c, s1, a, r, y, 4);
    RetryAlone(c, With(s, a, r, y), a, failed, error, []);
    WithWith(s, a, r, y, AfterFailure(s.redis, j, error, c.base, s.clock), Idle);
  }

  /** The three commands of an upload. */
  lemma UploadAlone(c: Config, s: State, a: ActorId, j: Job, plan: Plan)
    requires At(s, a) == Uploading(j) && Prepare(c.svc, c.mode, j.payload, s.store) == Ok(plan)
    ensures Solo(c, s, a, 3) == Put(s, a, Saving(Reported(j, 80, CACHING), ThenComplete)).(store := Writes(plan, j.productId, s.store, None))
  {
    assert Solo(c, s, a, 3) == Solo(c, Command(c, s, a), a, 2);
    UpsertsAlone(c, s, Put(s, a, PuttingImage(j, plan)), a, j, plan);
  }

  /** The two upserts, from s1, which is s with a about to issue the first. */
  lemma UpsertsAlone(c: Config, s: State, s1: State, a: ActorId, j: Job, plan: Plan)
    requires s1 == Put(s, a, PuttingImage(j, plan))
    ensures Solo(c, s1, a, 2) == Put(s, a, Saving(Reported(j, 80, CACHING), ThenComplete)).(store := Writes(plan, j.productId, s.store, None))
  {
    var s2 := Put(s, a, PuttingText(j, plan)).(store := PutImage(s.store, j.productId, plan));
    assert Command(c, s1, a) == s2 by {
      assert s.actors[a := PuttingImage(j, plan)][a := PuttingText(j, plan)] == s.actors[a := PuttingText(j, plan)];
    }
    var x := Saving(Reported(j, 80, CACHING), ThenComplete);
    assert s.actors[a := PuttingText(j, plan)][a := x] == s.actors[a := x];
    assert Solo(c, s1, a, 2) == Solo(c, s2, a, 1) == Solo(c, Command(c, s2, a), a, 0);
  }

  /** The five commands from the last checkpoint to the acknowledgement. */
  lemma FinishAlone(c: Config, s: State, a: ActorId, j: Job)
    requires At(s, a) == Saving(j, ThenComplete)
    ensures Solo(c, s, a, 5) ==
            With(s, a, QueueState.Ack(Save(Save(s.redis, j), CompletedAttempt(j)), j.id), Idle).(completed := s.completed + {j.id})
  {
    var done := CompletedAttempt(j);
    var r2 := Save(s.redis, j);
    var s2 := With(s, a, r2, Saving(done, ThenAck));
    SaveAlone(c, s, a, j, ThenComplete);
    SoloThen(c, s, a, 2, 3);
    AckAlone(c, s2, a, done);
    var r5 := QueueState.Ack(Save(r2, done), j.id);
    WithWith(s, a, r2, Saving(done, ThenAck), r5, Idle);
  }

  lemma AckAlone(c: Config, s: State, a: ActorId, j: Job)
    requires At(s, a) == Saving(j, ThenAck)
    ensures Solo(c, s, a, 3) == With(s, a, QueueState.Ack(Save(s.redis, j), j.id), Idle).(completed := s.completed + {j.id})
  {
    var r1 := SetJob(s.redis, j);
    var s0 := s.(completed := s.completed + {j.id});
    var s1 := With(s0, a, r1, Indexing(j, ThenAck));
    assert Command(c, s, a) == s1;
    OneThen(c, s1, a, SetIndex(r1, j), Acking(j), 1);
    WithWith(s0, a, r1, Indexing(j, ThenAck), SetIndex(r1, j), Acking(j));
    var s2 := With(s0, a, Save(s.redis, j), Acking(j));
    OneThen(c, s2, a, QueueState.Ack(Save(s.redis, j), j.id), Idle, 0);
    WithWith(s0, a, Save(s.redis, j), Acking(j), QueueState.Ack(Save(s.redis, j), j.id), Idle);
  }

  /** An upload that succeeds: twelve commands leave queue and collections as a successful attempt does. */
  lemma SuccessAlone(c: Config, s: State, a: ActorId, j: Job)
    requires At(s, a) == AfterDequeue(Some(j)) && Prepare(c.svc, c.mode, j.payload, s.store).Ok?
    ensures Solo(c, s, a, 12) ==
            With(s, a, AfterSuccess(s.redis, j), Idle).(store := AttemptEffect(c.svc, c.mode, j.payload, j.productId, s.store, None),
                                                        completed := s.completed + {j.id})
  {
    var r := Save(Save(s.redis, Checkpoint10(j)), Checkpoint40(j));
    var plan := Prepare(c.svc, c.mode, j.payload, s.store).value;
    var x, y := Uploading(Checkpoint40(j)), Saving(Checkpoint80(j), ThenComplete);
    var s0 := s.(store := Writes(plan, j.productId, s.store, None));
    CheckpointsAlone(c, s, a, j);
    UploadAlone(c, With(s, a, r, x), a, Checkpoint40(j), plan);
    WithWith(s0, a, r, x, r, y);
    SoloThen(c, s, a, 4, 3);
    assert Solo(c, s, a, 7) == With(s0, a, r, y);
    FinishAlone(c, With(s0, a, r, y), a, Checkpoint80(j));
    SoloThen(c, s, a, 7, 5);
    WithWith(s0, a, r, y, AfterSuccess(s.redis, j), Idle);
  }
}
