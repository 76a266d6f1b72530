/**
 What Redis holds for one queue, and the queue operations of
 backend/app/queue/redis_queue.py as functions on it. `RedisQueue` is proved to compute
 these; `Lifecycle` and `CommandSteps` prove what they promise.
 */
module QueueState {
  import opened Wrappers
  import opened Jobs

  type Time = real

  /** pending and deadLetter are lists, processing a hash of dequeue times, delayed a sorted set of ready-at times. */
  datatype Redis = Redis(pending: seq<JobId>, processing: map<JobId, Time>, delayed: map<JobId, Time>,
                         deadLetter: seq<JobId>, jobs: map<JobId, Job>, index: map<ProductId, JobId>)

  const EMPTY := Redis([], map[], map[], [], map[], map[])

  function SetJob(r: Redis, j: Job): Redis {
    r.(jobs := r.jobs[j.id := j])
  }

  function SetIndex(r: Redis, j: Job): Redis {
    r.(index := r.index[j.productId := j.id])
  }

  function Save(r: Redis, j: Job): Redis {
    SetIndex(SetJob(r, j), j)
  }

  function PushPending(r: Redis, id: JobId): Redis {
    r.(pending := r.pending + [id])
  }

  function DropDelayed(r: Redis, id: JobId): Redis {
    r.(delayed := r.delayed - {id})
  }

  function DropProcessing(r: Redis, id: JobId): Redis {
    r.(processing := r.processing - {id})
  }

  // ----- ZRANGEBYSCORE key 0 now: the due members by (score, member) -----

  predicate Precedes(delayed: map<JobId, Time>, a: JobId, b: JobId)
    requires a in delayed && b in delayed
  {
    delayed[a] < delayed[b] || (delayed[a] == delayed[b] && a < b)
  }

  function DueSet(delayed: map<JobId, Time>, now: Time): set<JobId> {
    set id | id in delayed && 0.0 <= delayed[id] <= now
  }

  ghost predicate ListsInOrder(delayed: map<JobId, Time>, ids: set<JobId>, s: seq<JobId>)
    requires ids <= delayed.Keys
  {
    && (forall id :: id in s <==> id in ids)
    && (forall i, j | 0 <= i < j < |s| :: s[i] in delayed && s[j] in delayed && Precedes(delayed, s[i], s[j]))
  }

  lemma {:induction false} FirstExists(delayed: map<JobId, Time>, ids: set<JobId>) returns (first: JobId)
    requires ids != {} && ids <= delayed.Keys
    ensures first in ids && forall id | id in ids && id != first :: Precedes(delayed, first, id)
  {
    var pick :| pick in ids;
    if ids == {pick} {
      first := pick;
    } else {
      var rest := ids - {pick};
      assert ids == {pick} + rest;
      var sub := FirstExists(delayed, rest);
      first := if Precedes(delayed, pick, sub) then pick else sub;
      forall id | id in ids && id != first ensures Precedes(delayed, first, id) {
        if id != pick && id != sub { assert Precedes(delayed, sub, id); }
      }
    }
  }

  ghost function InOrder(delayed: map<JobId, Time>, ids: set<JobId>): (s: seq<JobId>)
    requires ids <= delayed.Keys
    ensures ListsInOrder(delayed, ids, s)
  {
    if ids == {} then []
    else
      assert exists first :: first in ids && forall id | id in ids && id != first :: Precedes(delayed, first, id) by {
        var f := FirstExists(delayed, ids);
      }
      var first :| first in ids && forall id | id in ids && id != first :: Precedes(delayed, first, id);
      [first] + InOrder(delayed, ids - {first})
  }

  ghost function DueList(delayed: map<JobId, Time>, now: Time): seq<JobId> {
    InOrder(delayed, DueSet(delayed, now))
  }

  /** Order and members determine the list. */
  lemma {:induction false} OrderUnique(delayed: map<JobId, Time>, ids: set<JobId>, s: seq<JobId>, t: seq<JobId>)
    requires ids <= delayed.Keys && ListsInOrder(delayed, ids, s) && ListsInOrder(delayed, ids, t)
    ensures s == t
    decreases |s|
  {
    EmptyIffNothing(delayed, ids, s);
    EmptyIffNothing(delayed, ids, t);
    if s != [] {
      assert s[0] in t && t[0] in s;
      assert s[0] == t[0];
      assert ListsInOrder(delayed, ids - {s[0]}, s[1..]) by { TailInOrder(delayed, ids, s); }
      assert ListsInOrder(delayed, ids - {s[0]}, t[1..]) by { TailInOrder(delayed, ids, t); }
      OrderUnique(delayed, ids - {s[0]}, s[1..], t[1..]);
      assert s == [s[0]] + s[1..] && t == [t[0]] + t[1..];
    }
  }

  lemma EmptyIffNothing(delayed: map<JobId, Time>, ids: set<JobId>, s: seq<JobId>)
    requires ids <= delayed.Keys && ListsInOrder(delayed, ids, s)
    ensures s == [] <==> ids == {}
  {
    if s != [] { assert s[0] in s; }
  }

  lemma TailInOrder(delayed: map<JobId, Time>, ids: set<JobId>, s: seq<JobId>)
    requires ids <= delayed.Keys && ListsInOrder(delayed, ids, s) && s != []
    ensures ListsInOrder(delayed, ids - {s[0]}, s[1..])
  {
    forall id ensures id in s[1..] <==> id in ids - {s[0]} {
      if id in s[1..] {
        var k :| 0 <= k < |s[1..]| && s[1..][k] == id;
        assert s[k + 1] == id;
      }
    }
  }

  // ----- The queue methods, each as one atomic change -----

  function Enqueue(r: Redis, j: Job): Redis {
    PushPending(Save(r, j), j.id)
  }

  ghost function Promote(r: Redis, now: Time): Redis {
    r.(delayed := r.delayed - DueSet(r.delayed, now), pending := r.pending + DueList(r.delayed, now))
  }

  /** The state after LPOP and what follows it, from a state with the due jobs already promoted. */
  function Pop(r: Redis, now: Time): (Redis, Option<Job>) {
    if r.pending == [] then (r, None)
    else
      var id := r.pending[0];
      var popped := r.(pending := r.pending[1..]);
      if id !in r.jobs then (popped, None)
      else
        var j := Started(r.jobs[id]);
        (Save(popped.(processing := popped.processing[j.id := now]), j), Some(j))
  }

  /** The clock is read once for the promotion and once more for the processing entry. */
  ghost function Dequeue(r: Redis, now: Time, claimedAt: Time): (Redis, Option<Job>) {
    Pop(Promote(r, now), claimedAt)
  }

  function Ack(r: Redis, id: JobId): Redis {
    DropProcessing(r, id)
  }

  function Power2(n: nat): (p: nat)
    ensures p >= 1
  {
    if n == 0 then 1 else 2 * Power2(n - 1)
  }

  function Exhausted(j: Job): bool {
    j.retryCount + 1 > j.maxRetries
  }

  /** The job record `retry` saves. */
  function Retried(j: Job, error: string): Job {
    j.(retryCount := j.retryCount + 1, error := Some(error), status := if Exhausted(j) then FAILED else RETRYING)
  }

  /** Exponential backoff before the next attempt of a job that has now been retried `retryCount` times. */
  function Backoff(base: real, retryCount: nat): real
    requires retryCount >= 1
  {
    base * (Power2(retryCount - 1) as real)
  }

  function Retry(r: Redis, j: Job, error: string, base: real, now: Time): Redis {
    var j' := Retried(j, error);
    var saved := Save(DropProcessing(r, j.id), j');
    if Exhausted(j) then saved.(deadLetter := saved.deadLetter + [j.id])
    else saved.(delayed := saved.delayed[j.id := now + Backoff(base, j'.retryCount)])
  }

  const STALE_ERROR := "Worker did not complete this job in time."

  function StaleSet(r: Redis, older: real, now: Time): set<JobId> {
    set id | id in r.processing && now - r.processing[id] >= older
  }

  function RecoverOne(r: Redis, id: JobId, base: real, now: Time): Redis {
    if id in r.jobs then Retry(r, r.jobs[id], STALE_ERROR, base, now) else DropProcessing(r, id)
  }

  /** One recovery sweep over the given ids, in the order the hash listed them. */
  function Recover(r: Redis, order: seq<JobId>, base: real, now: Time): Redis
    decreases order
  {
    if order == [] then r else Recover(RecoverOne(r, order[0], base, now), order[1..], base, now)
  }

  ghost predicate Distinct<T>(s: seq<T>) {
    forall i, j | 0 <= i < j < |s| :: s[i] != s[j]
  }

  ghost predicate Enumerates<T(!new)>(s: seq<T>, ids: set<T>) {
    Distinct(s) && forall id :: id in s <==> id in ids
  }
}
