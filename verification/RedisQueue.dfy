/**
 The queue as the object the workers call (backend/app/queue/redis_queue.py), one method
 at a time, on an in-memory job object whose fields the queue and the worker assign.
 Clock readings are passed in.
 */
module RedisQueues {
  import opened Wrappers
  import opened Jobs
  import opened QueueState

  /** The in-memory job (backend/app/jobs/base_job.py): loaded from a record, mutated, saved back as a record. */
  class LiveJob {
    const id: JobId
    const productId: ProductId
    const payload: Payload
    const maxRetries: nat
    var status: JobStatus
    var retryCount: nat
    var progress: nat
    var stage: string
    var error: Option<string>
    var history: seq<JobResult>

    constructor (j: Job)
      ensures Dump() == j
    {
      id, productId, payload, maxRetries := j.id, j.productId, j.payload, j.maxRetries;
      status, retryCount, progress, stage, error, history := j.status, j.retryCount, j.progress, j.stage, j.error, j.history;
    }

    /** `model_dump_json`: what is stored for this job. */
    function Dump(): Job
      reads this
    {
      Job(id, productId, payload, status, retryCount, maxRetries, progress, stage, error, history)
    }
  }

  /** Its time has come, and of all whose time has come it was the first, or has the smallest id of the first. */
  ghost predicate IsFirstDue(delayed: map<JobId, Time>, now: Time, id: JobId) {
    && id in delayed && 0.0 <= delayed[id] <= now
    && forall k | k in delayed && 0.0 <= delayed[k] <= now && k != id ::
         delayed[id] < delayed[k] || (delayed[id] == delayed[k] && id < k)
  }

  class RedisQueue {
    const retryDelay: real
    var pending: seq<JobId>
    var processing: map<JobId, Time>
    var delayed: map<JobId, Time>
    var deadLetter: seq<JobId>
    var jobs: map<JobId, Job>
    var index: map<ProductId, JobId>

    constructor (retryDelay: real)
      ensures this.retryDelay == retryDelay && View() == EMPTY
    {
      this.retryDelay := retryDelay;
      pending, processing, delayed, deadLetter, jobs, index := [], map[], map[], [], map[], map[];
    }

    function View(): Redis
      reads this
    {
      Redis(pending, processing, delayed, deadLetter, jobs, index)
    }

    method SaveRecord(job: LiveJob)
      modifies this
      ensures View() == Save(old(View()), job.Dump())
      ensures jobs == old(jobs)[job.id := job.Dump()] && index == old(index)[job.productId := job.id]
    {
      jobs := jobs[job.id := job.Dump()];
      index := index[job.productId := job.id];
    }

    /** First in, first out: the job goes behind those that wait already. */
    method Enqueue(job: LiveJob)
      modifies this
      ensures View() == QueueState.Enqueue(old(View()), job.Dump())
      ensures pending == old(pending) + [job.id]
      ensures job.id in jobs && jobs[job.id] == job.Dump()
    {
      SaveRecord(job);
      pending := pending + [job.id];
    }

    /** ZRANGEBYSCORE: the due ids, by ready-at time and then by id. */
    method DueIds(now: Time) returns (due: seq<JobId>)
      ensures due == DueList(delayed, now)
    {
      var rest := DueSet(delayed, now);
      due := [];
      while rest != {}
        invariant rest <= DueSet(delayed, now)
        invariant ListsInOrder(delayed, DueSet(delayed, now) - rest, due)
        invariant forall id, later | id in due && later in rest :: Precedes(delayed, id, later)
        decreases rest
      {
        ghost var f := FirstExists(delayed, rest);
        var first :| first in rest && forall id | id in rest && id != first :: Precedes(delayed, first, id);
        assert forall i | 0 <= i < |due| :: due[i] in due && Precedes(delayed, due[i], first);
        due, rest := due + [first], rest - {first};
      }
      OrderUnique(delayed, DueSet(delayed, now), due, DueList(delayed, now));
    }

    /** `due` is what was read: each id whose time has come, once, the earlier first and on a tie the smaller id. */
    method PromoteDueDelayedJobs(now: Time) returns (ghost due: seq<JobId>)
      modifies this
      ensures View() == Promote(old(View()), now)
      ensures pending == old(pending) + due
      ensures forall id :: id in due <==> id in old(delayed) && 0.0 <= old(delayed)[id] <= now
      ensures forall i, j | 0 <= i < j < |due| ::
                || old(delayed)[due[i]] < old(delayed)[due[j]]
                || (old(delayed)[due[i]] == old(delayed)[due[j]] && due[i] < due[j])
      ensures forall id :: id in delayed <==> id in old(delayed) && id !in due
    {
      ghost var before := View();
      var read := DueIds(now);
      due := read;
      for i := 0 to |read|
        invariant pending == before.pending + read[..i]
        invariant delayed == before.delayed - (set k | 0 <= k < i :: read[k])
        invariant View() == before.(pending := pending, delayed := delayed)
      {
        delayed := delayed - {read[i]};
        pending := pending + [read[i]];
      }
      assert due[..|due|] == due;
      assert (set k | 0 <= k < |due| :: due[k]) == DueSet(before.delayed, now) by {
        assert forall id :: id in due <==> id in DueSet(before.delayed, now);
      }
    }

    /** A new in-memory job holding the stored record, or null. */
    method Get(id: JobId) returns (job: LiveJob?)
      ensures job == null <==> id !in jobs
      ensures job != null ==> fresh(job) && job.Dump() == jobs[id]
    {
      if id !in jobs {
        return null;
      }
      job := new LiveJob(jobs[id]);
    }

    method GetByProductId(productId: ProductId) returns (job: LiveJob?)
      ensures job == null <==> productId !in index || index[productId] !in jobs
      ensures job != null ==> fresh(job) && job.Dump() == jobs[index[productId]]
    {
      if productId !in index {
        return null;
      }
      job := Get(index[productId]);
    }

    method Dequeue(now: Time, claimedAt: Time) returns (job: LiveJob?)
      requires forall id | id in jobs :: jobs[id].id == id
      modifies this
      ensures View() == QueueState.Dequeue(old(View()), now, claimedAt).0
      ensures var got := QueueState.Dequeue(old(View()), now, claimedAt).1;
              if job == null then got == None else fresh(job) && got == Some(job.Dump())
      ensures job == null && old(pending) != [] ==> old(pending)[0] !in old(jobs)
      ensures job == null && old(pending) == [] ==> forall id | IsFirstDue(old(delayed), now, id) :: id !in old(jobs)
      ensures job != null ==> job.status == RUNNING && processing == old(processing)[job.id := claimedAt]
      ensures job != null && old(pending) != [] ==> job.id == old(pending)[0]
      ensures job != null && old(pending) == [] ==> IsFirstDue(old(delayed), now, job.id)
    {
      ghost var due := PromoteDueDelayedJobs(now);
      if pending == [] {
        return null;
      }
      var id := pending[0];
      assert old(pending) == [] ==> IsFirstDue(old(delayed), now, id);
      pending := pending[1..];
      job := Get(id);
      if job == null {
        return;
      }
      processing := processing[job.id := claimedAt];
      job.status := RUNNING;
      SaveRecord(job);
    }

    method Ack(job: LiveJob)
      modifies this
      ensures View() == QueueState.Ack(old(View()), job.id)
      ensures processing == old(processing) - {job.id}
    {
      processing := processing - {job.id};
    }

    method Retry(job: LiveJob, error: string, now: Time)
      modifies this, job
      ensures View() == QueueState.Retry(old(View()), old(job.Dump()), error, retryDelay, now)
      ensures job.Dump() == Retried(old(job.Dump()), error)
      ensures job.retryCount == old(job.retryCount) + 1 && job.error == Some(error) && job.history == old(job.history)
      ensures processing == old(processing) - {job.id} && jobs == old(jobs)[job.id := job.Dump()] && pending == old(pending)
      ensures if old(job.retryCount) >= job.maxRetries
              then job.status == FAILED && deadLetter == old(deadLetter) + [job.id] && delayed == old(delayed)
              else job.status == RETRYING && deadLetter == old(deadLetter)
                   && delayed == old(delayed)[job.id := now + retryDelay * (Power2(old(job.retryCount)) as real)]
    {
      processing := processing - {job.id};
      job.retryCount := job.retryCount + 1;
      job.error := Some(error);
      if job.retryCount > job.maxRetries {
        job.status := FAILED;
        SaveRecord(job);
        deadLetter := deadLetter + [job.id];
        return;
      }
      job.status := RETRYING;
      assert job.retryCount - 1 == old(job.retryCount);
      var delay := retryDelay * (Power2(job.retryCount - 1) as real);
      assert delay == Backoff(retryDelay, old(job.retryCount) + 1);
      var readyAt := now + delay;
      SaveRecord(job);
      delayed := delayed[job.id := readyAt];
    }

    method Update(job: LiveJob)
      modifies this
      ensures View() == Save(old(View()), job.Dump())
    {
      SaveRecord(job);
    }

    /** The body of the sweep for one stale id: whether it had a record. */
    method RecoverStaleJob(id: JobId, now: Time) returns (found: bool)
      requires forall k | k in jobs :: jobs[k].id == k
      modifies this
      ensures View() == RecoverOne(old(View()), id, retryDelay, now)
      ensures found == (id in old(jobs))
    {
      var job := Get(id);
      found := job != null;
      if job == null {
        processing := processing - {id};
      } else {
        Retry(job, STALE_ERROR, now);
      }
    }

    /** `order` is the order in which the hash happened to list its stale ids. */
    method RequeueStaleJobs(older: real, now: Time) returns (requeued: nat, ghost order: seq<JobId>)
      requires forall id | id in jobs :: jobs[id].id == id
      modifies this
      ensures Enumerates(order, StaleSet(old(View()), older, now))
      ensures View() == Recover(old(View()), order, retryDelay, now)
      ensures requeued == |StaleSet(old(View()), older, now) * old(jobs).Keys|
      ensures Swept(old(View()), View(), older, retryDelay, now)
      ensures requeued == |set id | id in old(processing) && now - old(processing)[id] >= older && id in old(jobs)|
    {
      ghost var before := View();
      var inFlight := processing;
      var todo := inFlight.Keys;
      requeued, order := 0, [];
      ghost var stale := StaleSet(before, older, now);
      ghost var seen: set<JobId> := {};
      while todo != {}
        invariant todo <= inFlight.Keys
        invariant seen <= stale <= seen + todo && seen !! todo
        invariant SweptSoFar(before, View(), retryDelay, now, order, seen, requeued)
        decreases todo
      {
        var id :| id in todo;
        todo := todo - {id};
        if now - inFlight[id] < older {
          continue;
        }
        SweepFurther(before, View(), retryDelay, now, order, seen, requeued, id);
        order, seen := order + [id], seen + {id};
        var hasRecord := RecoverStaleJob(id, now);
        if hasRecord {
          requeued := requeued + 1;
        }
      }
      assert seen == stale;
      SweepMeans(before, order, older, retryDelay, now);
      SweepCounts(before, older, now);
    }
  }

  /** Where a sweep stands that has recovered the ids of `seen` in that order. */
  ghost predicate SweptSoFar(before: Redis, r: Redis, base: real, now: Time, order: seq<JobId>, seen: set<JobId>, requeued: nat) {
    && Enumerates(order, seen)
    && r == Recover(before, order, base, now)
    && r.jobs.Keys == before.jobs.Keys && (forall id | id in r.jobs :: r.jobs[id].id == id)
    && requeued == |seen * before.jobs.Keys|
  }

  lemma RecoverOneKeyed(r: Redis, id: JobId, base: real, now: Time)
    requires forall k | k in r.jobs :: r.jobs[k].id == k
    ensures var r' := RecoverOne(r, id, base, now); r'.jobs.Keys == r.jobs.Keys && forall k | k in r'.jobs :: r'.jobs[k].id == k
  {
  }

  lemma SweepFurther(before: Redis, r: Redis, base: real, now: Time, order: seq<JobId>, seen: set<JobId>, requeued: nat, id: JobId)
    requires SweptSoFar(before, r, base, now, order, seen, requeued) && id !in seen
    ensures SweptSoFar(before, RecoverOne(r, id, base, now), base, now, order + [id], seen + {id}, requeued + if id in r.jobs then 1 else 0)
  {
    RecoverOneKeyed(r, id, base, now);
    RecoverSnoc(before, order, id, base, now);
    EnumeratesSnoc(order, id, seen, seen + {id});
    GrowIntersection(seen, id, before.jobs.Keys);
  }

  // ----- What a sweep does to each job -----

  /** Every trace the queue has of the id is as it was. */
  predicate LeftAlone(r: Redis, r': Redis, id: JobId) {
    && (id in r'.processing <==> id in r.processing) && (id in r.processing && id in r'.processing ==> r'.processing[id] == r.processing[id])
    && (id in r'.delayed <==> id in r.delayed) && (id in r.delayed && id in r'.delayed ==> r'.delayed[id] == r.delayed[id])
    && (id in r'.jobs <==> id in r.jobs) && (id in r.jobs && id in r'.jobs ==> r'.jobs[id] == r.jobs[id])
    && r'.pending == r.pending && (id in r'.deadLetter <==> id in r.deadLetter)
  }

  /** One more retry counted, and either a ready-at twice as far away as the time before, or the dead-letter list. */
  ghost predicate TriedAgain(r: Redis, r': Redis, id: JobId, base: real, now: Time)
    requires id in r.jobs
  {
    var j := r.jobs[id];
    && id in r'.jobs && r'.jobs[id].retryCount == j.retryCount + 1 && r'.jobs[id].SameWork(j) && r'.jobs[id].history == j.history
    && r'.jobs[id].error == Some("Worker did not complete this job in time.")
    && if j.retryCount >= j.maxRetries then r'.jobs[id].status == FAILED && id in r'.deadLetter
       else r'.jobs[id].status == RETRYING && id in r'.delayed && r'.delayed[id] == now + base * (Power2(j.retryCount) as real)
  }

  lemma LeftTwice(r: Redis, r1: Redis, r2: Redis, id: JobId)
    requires LeftAlone(r, r1, id) && LeftAlone(r1, r2, id)
    ensures LeftAlone(r, r2, id)
  {
  }

  /** Gone from processing, and tried again if it has a record. */
  ghost predicate Recovered(r: Redis, r': Redis, id: JobId, base: real, now: Time) {
    id !in r'.processing && (id in r.jobs ==> TriedAgain(r, r', id, base, now))
  }

  lemma RecoveredThenLeft(r: Redis, r1: Redis, r2: Redis, id: JobId, base: real, now: Time)
    requires Recovered(r, r1, id, base, now) && LeftAlone(r1, r2, id)
    ensures Recovered(r, r2, id, base, now)
  {
  }

  lemma LeftThenRecovered(r: Redis, r1: Redis, r2: Redis, id: JobId, base: real, now: Time)
    requires LeftAlone(r, r1, id) && Recovered(r1, r2, id, base, now)
    ensures Recovered(r, r2, id, base, now)
  {
  }

  lemma RecoverOneOthers(r: Redis, k: JobId, base: real, now: Time, id: JobId)
    requires (forall i | i in r.jobs :: r.jobs[i].id == i) && id != k
    ensures LeftAlone(r, RecoverOne(r, k, base, now), id)
  {
  }

  lemma RecoverOneItself(r: Redis, id: JobId, base: real, now: Time)
    requires forall i | i in r.jobs :: r.jobs[i].id == i
    ensures Recovered(r, RecoverOne(r, id, base, now), id, base, now)
  {
  }

  lemma RecoverOneOnly(r: Redis, k: JobId, base: real, now: Time, id: JobId)
    requires forall i | i in r.jobs :: r.jobs[i].id == i
    ensures forall i | i in RecoverOne(r, k, base, now).jobs :: RecoverOne(r, k, base, now).jobs[i].id == i
    ensures id != k ==> LeftAlone(r, RecoverOne(r, k, base, now), id)
    ensures id == k ==> Recovered(r, RecoverOne(r, k, base, now), id, base, now)
  {
    if id == k { RecoverOneItself(r, id, base, now); } else { RecoverOneOthers(r, k, base, now, id); }
  }

  lemma {:induction false} RecoverEach(r: Redis, order: seq<JobId>, base: real, now: Time, id: JobId)
    requires (forall i | i in r.jobs :: r.jobs[i].id == i) && Distinct(order)
    ensures id !in order ==> LeftAlone(r, Recover(r, order, base, now), id)
    ensures id in order ==> Recovered(r, Recover(r, order, base, now), id, base, now)
    decreases order
  {
    if order != [] {
      var r1 := RecoverOne(r, order[0], base, now);
      var r2 := Recover(r1, order[1..], base, now);
      RecoverOneOnly(r, order[0], base, now, id);
      RecoverEach(r1, order[1..], base, now, id);
      if id == order[0] { RecoveredThenLeft(r, r1, r2, id, base, now); }
      else if id in order { LeftThenRecovered(r, r1, r2, id, base, now); }
      else { LeftTwice(r, r1, r2, id); }
    }
  }

  /** Exactly the jobs in processing for so long have been recovered; nothing else has changed. */
  ghost predicate Swept(r: Redis, r': Redis, older: real, base: real, now: Time) {
    && (forall id | id !in r.processing || now - r.processing[id] < older :: LeftAlone(r, r', id))
    && (forall id | id in r.processing && now - r.processing[id] >= older :: Recovered(r, r', id, base, now))
  }

  lemma SweepMeans(r: Redis, order: seq<JobId>, older: real, base: real, now: Time)
    requires (forall i | i in r.jobs :: r.jobs[i].id == i) && Enumerates(order, StaleSet(r, older, now))
    ensures Swept(r, Recover(r, order, base, now), older, base, now)
  {
    var r' := Recover(r, order, base, now);
    forall id | id !in r.processing || now - r.processing[id] < older ensures LeftAlone(r, r', id) {
      RecoverEach(r, order, base, now, id);
    }
    forall id | id in r.processing && now - r.processing[id] >= older ensures Recovered(r, r', id, base, now) {
      RecoverEach(r, order, base, now, id);
    }
  }

  lemma SweepCounts(r: Redis, older: real, now: Time)
    ensures StaleSet(r, older, now) * r.jobs.Keys == set id | id in r.processing && now - r.processing[id] >= older && id in r.jobs
  {
  }

  lemma GrowIntersection(s: set<JobId>, id: JobId, keys: set<JobId>)
    requires id !in s
    ensures (s + {id}) * keys == if id in keys then s * keys + {id} else s * keys
    ensures |(s + {id}) * keys| == |s * keys| + if id in keys then 1 else 0
  {
    assert (s + {id}) * keys == if id in keys then s * keys + {id} else s * keys;
  }

  lemma EnumeratesSnoc<T(!new)>(s: seq<T>, x: T, before: set<T>, after: set<T>)
    requires Enumerates(s, before) && x !in before && after == before + {x}
    ensures Enumerates(s + [x], after)
  {
    assert forall i | 0 <= i < |s| :: s[i] in s;
  }

  lemma {:induction false} RecoverSnoc(r: Redis, order: seq<JobId>, id: JobId, base: real, now: Time)
    ensures Recover(r, order + [id], base, now) == RecoverOne(Recover(r, order, base, now), id, base, now)
    decreases order
  {
    if order == [] {
      assert ([] + [id])[1..] == [];
    } else {
      assert (order + [id])[1..] == order[1..] + [id];
      RecoverSnoc(RecoverOne(r, order[0], base, now), order[1..], id, base, now);
    }
  }
}
