/**
 What the lifecycle invariant says of every reachable state, in the protocol's own terms: where a
 job is, what its status tells, how often it is tried, and which records agree.
 */
module QueueGuarantees {
  import opened Jobs
  import opened QueueState
  import opened Lifecycle

  ghost predicate Reachable(p: Policy, s: System) {
    p.base >= 0.0 && exists es :: Valid(p, START, es) && s == Run(p, START, es)
  }

  lemma ReachableInv(p: Policy, s: System)
    requires Reachable(p, s)
    ensures Inv(p, s)
  {
    var es :| Valid(p, START, es) && s == Run(p, START, es);
    InvRun(p, START, es);
  }

  /** No container lists a job twice, no job is in two containers, and a job in none of them has completed. */
  lemma OneHome(p: Policy, s: System, id: JobId)
    requires Reachable(p, s)
    ensures Distinct(s.redis.pending) && Distinct(s.redis.deadLetter)
    ensures id in s.redis.pending ==> id !in s.redis.processing && id !in s.redis.delayed && id !in s.redis.deadLetter
    ensures id in s.redis.processing ==> id !in s.redis.delayed && id !in s.redis.deadLetter
    ensures id in s.redis.delayed ==> id !in s.redis.deadLetter
    ensures id in s.redis.jobs && HomeOf(s.redis, id) == Nowhere ==> s.redis.jobs[id].status == COMPLETED
    ensures HomeOf(s.redis, id) != Nowhere ==> id in s.redis.jobs
  {
    ReachableInv(p, s);
    if id in s.redis.jobs { assert JobOk(p, s, id); }
  }

  /**
   Where a job is and what status a client reads determine each other, up to a completed job its worker
   has not acknowledged yet.
   */
  lemma StatusTellsHome(p: Policy, s: System, id: JobId)
    requires Reachable(p, s) && id in s.redis.jobs
    ensures var r, status := s.redis, s.redis.jobs[id].status;
            && (id in r.pending ==> status == PENDING || status == RETRYING)
            && (id in r.processing ==> status == RUNNING || status == COMPLETED)
            && (id in r.delayed ==> status == RETRYING)
            && (id in r.deadLetter <==> status == FAILED)
            && (status == PENDING ==> id in r.pending)
            && (status == RETRYING ==> id in r.pending || id in r.delayed)
            && (status == RUNNING ==> id in r.processing)
            && (status == COMPLETED ==> id in r.processing || HomeOf(r, id) == Nowhere)
  {
    ReachableInv(p, s);
    assert JobOk(p, s, id);
  }

  /**
   At most `maxRetries + 1` dequeues; the dead-letter list holds exactly the jobs one retry past the
   bound; the backoff scheduled is that of at most `maxRetries` retries.
   */
  lemma RetriesBounded(p: Policy, s: System, id: JobId)
    requires Reachable(p, s) && id in s.redis.jobs
    ensures id in s.tally
    ensures var j, t := s.redis.jobs[id], s.tally[id];
            && t.dequeues <= j.maxRetries + 1
            && (id in s.redis.deadLetter <==> j.retryCount == j.maxRetries + 1)
            && j.retryCount <= t.dequeues <= j.retryCount + 1
            && (exists r: nat :: r <= j.maxRetries && r <= j.retryCount <= r + 1 && t.backoff == TotalBackoff(p.base, r))
  {
    ReachableInv(p, s);
    assert JobOk(p, s, id);
    assert s.tally[id].backoff == TotalBackoff(p.base, Scheduled(s.redis.jobs[id]));
  }

  /** Attempt numbers in the history only go up, and none is beyond the current attempt. */
  lemma AttemptsIncrease(p: Policy, s: System, id: JobId)
    requires Reachable(p, s) && id in s.redis.jobs
    ensures id in s.tally
    ensures var h := s.redis.jobs[id].history;
            && (forall i, k | 0 <= i < k < |h| :: h[i].attempt < h[k].attempt)
            && (forall i | 0 <= i < |h| :: 1 <= h[i].attempt <= s.tally[id].dequeues)
  {
    ReachableInv(p, s);
    assert JobOk(p, s, id);
  }

  /** A job handed out after a retry is never handed out before the ready-at that retry scheduled. */
  lemma NeverPoppedEarly(p: Policy, s: System)
    requires Reachable(p, s)
    ensures var got := QueueState.Dequeue(s.redis, s.clock, s.clock).1;
            got.Some? ==> got.value.id in s.tally && s.tally[got.value.id].readyAt <= s.clock
  {
    ReachableInv(p, s);
    PromoteInv(p, s);
    var s1 := s.(redis := Promote(s.redis, s.clock));
    if s1.redis.pending != [] { assert JobOk(p, s1, s1.redis.pending[0]); }
  }

  /** `get_by_product_id` finds the record `get` finds. */
  lemma ProductIndexResolves(p: Policy, s: System, id: JobId)
    requires Reachable(p, s) && id in s.redis.jobs
    ensures var k := s.redis.jobs[id].productId; k in s.redis.index && s.redis.index[k] == id
  {
    ReachableInv(p, s);
  }

  /** A busy worker's in-memory job is the stored record. */
  lemma WorkerHoldsTheRecord(p: Policy, s: System, w: WorkerId)
    requires Reachable(p, s) && w in s.live
    ensures s.live[w].id in s.redis.jobs && s.redis.jobs[s.live[w].id] == s.live[w]
  {
    ReachableInv(p, s);
  }
}
