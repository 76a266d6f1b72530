/**
 Each queue method run alone, command by command, computes its one-step meaning in
 `QueueState`. What interference and ill-timed stops can do is in `Interference`.
 */
module CommandRuns {
  import opened Wrappers
  import opened Jobs
  import opened QueueState
  import opened Uploads
  import opened CommandSteps

  /** n commands of one actor in a row. */
  ghost function Solo(c: Config, s: State, a: ActorId, n: nat): State
    decreases n
  {
    if n == 0 then s else Solo(c, Command(c, s, a), a, n - 1)
  }

  lemma {:induction false} SoloThen(c: Config, s: State, a: ActorId, m: nat, n: nat)
    ensures Solo(c, s, a, m + n) == Solo(c, Solo(c, s, a, m), a, n)
    decreases m
  {
    if m > 0 { SoloThen(c, Command(c, s, a), a, m - 1, n); }
  }

  /** s with the queue changed to r and actor a now at x; nothing else differs. */
  ghost function With(s: State, a: ActorId, r: Redis, x: Actor): State {
    Put(s, a, x).(redis := r)
  }

  lemma WithWith(s: State, a: ActorId, r: Redis, x: Actor, r': Redis, y: Actor)
    ensures With(With(s, a, r, x), a, r', y) == With(s, a, r', y)
    ensures At(With(s, a, r, x), a) == x
  {
    assert s.actors[a := x][a := y] == s.actors[a := y];
  }

  lemma OneThen(c: Config, s: State, a: ActorId, r: Redis, x: Actor, n: nat)
    requires Command(c, s, a) == With(s, a, r, x)
    ensures Solo(c, s, a, n + 1) == Solo(c, With(s, a, r, x), a, n)
  {
  }

  lemma SaveAlone(c: Config, s: State, a: ActorId, j: Job, after: After)
    requires At(s, a) == Saving(j, after) && !after.ThenAck?
    ensures Solo(c, s, a, 2) == With(s, a, Save(s.redis, j), Continue(j, after))
  {
    var r1 := SetJob(s.redis, j);
    var s1 := With(s, a, r1, Indexing(j, after));
    OneThen(c, s, a, r1, Indexing(j, after), 1);
    OneThen(c, s1, a, SetIndex(r1, j), Continue(j, after), 0);
    WithWith(s, a, r1, Indexing(j, after), SetIndex(r1, j), Continue(j, after));
  }

  /** `enqueue` run alone is the one-step `Enqueue`. */
  lemma EnqueueAlone(c: Config, s: State, a: ActorId, j: Job)
    requires Enabled(c, s, Submit(a, j))
    ensures Solo(c, Next(c, s, Submit(a, j)), a, 3) ==
            With(s, a, Enqueue(s.redis, j), Idle).(issued := s.issued[j.id := j], pushed := s.pushed + {j.id})
  {
    var s0 := Next(c, s, Submit(a, j));
    SaveAlone(c, s0, a, j, ThenPush);
    SoloThen(c, s0, a, 2, 1);
    var s2 := With(s0, a, Save(s.redis, j), Pushing(j));
    assert Solo(c, s2, a, 1) == Solo(c, Command(c, s2, a), a, 0) == Command(c, s2, a);
    assert s0.actors[a := Pushing(j)][a := Idle] == s.actors[a := Idle];
  }

  function Promoted(r: Redis, due: seq<JobId>): Redis {
    r.(delayed := r.delayed - Elements(due), pending := r.pending + due)
  }

  lemma PromotedStep(r: Redis, due: seq<JobId>)
    requires due != []
    ensures Promoted(PushPending(DropDelayed(r, due[0]), due[0]), due[1..]) == Promoted(r, due)
  {
    assert due == [due[0]] + due[1..];
    assert r.pending + [due[0]] + due[1..] == r.pending + due;
    assert r.delayed - {due[0]} - Elements(due[1..]) == r.delayed - Elements(due);
  }

  lemma PromotedNone(r: Redis)
    ensures Promoted(r, []) == r
  {
    assert r.delayed - Elements([]) == r.delayed;
    assert r.pending + [] == r.pending;
  }

  lemma {:induction false} PromoteAlone(c: Config, s: State, a: ActorId, due: seq<JobId>)
    requires At(s, a) == Promoting(due)
    ensures Solo(c, s, a, 2 * |due|) == With(s, a, Promoted(s.redis, due), Promoting([]))
    decreases due
  {
    if due == [] {
      PromotedNone(s.redis);
      assert s.actors[a := Promoting([])] == s.actors;
    } else {
      var r1, x1 := DropDelayed(s.redis, due[0]), PromotePush(due[0], due[1..]);
      var r2, x2 := PushPending(r1, due[0]), Promoting(due[1..]);
      var s1, s2 := With(s, a, r1, x1), With(s, a, r2, x2);
      WithWith(s, a, r1, x1, r2, x2);
      OneThen(c, s, a, r1, x1, 1 + 2 * |due[1..]|);
      OneThen(c, s1, a, r2, x2, 2 * |due[1..]|);
      PromotedStep(s.redis, due);
      WithWith(s, a, r2, x2, Promoted(r2, due[1..]), Promoting([]));
      PromoteAlone(c, s2, a, due[1..]);
    }
  }

  /** What `dequeue` leaves its worker doing: nothing, or reporting its first checkpoint on the job it was given. */
  function AfterDequeue(got: Option<Job>): Actor {
    match got
    case None => Idle
    case Some(j) => Continue(j, ThenValidate)
  }

  /** How many commands follow the promotion. */
  function PopCommands(r: Redis): nat {
    if r.pending == [] then 1 else if r.pending[0] !in r.jobs then 2 else 5
  }

  /** Each record is stored under its own id. */
  ghost predicate Keyed(r: Redis) {
    forall id | id in r.jobs :: r.jobs[id].id == id
  }

  lemma PopAlone(c: Config, s: State, a: ActorId)
    requires At(s, a) == Promoting([])
    requires Keyed(s.redis)
    ensures var (r, got) := Pop(s.redis, s.clock); Solo(c, s, a, PopCommands(s.redis)) == With(s, a, r, AfterDequeue(got))
  {
    if s.redis.pending == [] {
      OneThen(c, s, a, s.redis, Idle, 0);
    } else {
      var id := s.redis.pending[0];
      var r1 := s.redis.(pending := s.redis.pending[1..]);
      var s1 := With(s, a, r1, Fetching(id));
      if id !in s.redis.jobs {
        OneThen(c, s, a, r1, Fetching(id), 1);
        OneThen(c, s1, a, r1, Idle, 0);
        WithWith(s, a, r1, Fetching(id), r1, Idle);
      } else {
        var j := s.redis.jobs[id];
        var r3 := r1.(processing := r1.processing[id := s.clock]);
        var x3 := Saving(Started(j), ThenValidate);
        OneThen(c, s, a, r1, Fetching(id), 4);
        OneThen(c, s1, a, r1, Claiming(j), 3);
        WithWith(s, a, r1, Fetching(id), r1, Claiming(j));
        OneThen(c, With(s, a, r1, Claiming(j)), a, r3, x3, 2);
        WithWith(s, a, r1, Claiming(j), r3, x3);
        SaveAlone(c, With(s, a, r3, x3), a, Started(j), ThenValidate);
        WithWith(s, a, r3, x3, Save(r3, Started(j)), Continue(Started(j), ThenValidate));
      }
    }
  }

  /** `dequeue` run alone, command by command, is the one-step `Dequeue`. */
  lemma DequeueAlone(c: Config, s: State, a: ActorId)
    requires Enabled(c, s, Poll(a, s.clock))
    requires Keyed(s.redis)
    ensures var (r, got) := Dequeue(s.redis, s.clock, s.clock);
            exists n: nat :: Solo(c, Next(c, s, Poll(a, s.clock)), a, n) == With(s, a, r, AfterDequeue(got))
  {
    var due := DueList(s.redis.delayed, s.clock);
    var s0 := Next(c, s, Poll(a, s.clock));
    assert s0 == With(s, a, s.redis, Promoting(due));
    PromoteAlone(c, s0, a, due);
    assert Elements(due) == DueSet(s.redis.delayed, s.clock);
    var r1 := Promote(s.redis, s.clock);
    assert r1 == Promoted(s.redis, due);
    WithWith(s, a, s.redis, Promoting(due), r1, Promoting([]));
    var s1 := With(s, a, r1, Promoting([]));
    PopAlone(c, s1, a);
    var (r, got) := Pop(r1, s.clock);
    WithWith(s, a, r1, Promoting([]), r, AfterDequeue(got));
    SoloThen(c, s0, a, 2 * |due|, PopCommands(r1));
  }

  /** The first three commands of `retry`: HDEL, and the two of `_save`. */
  lemma RetrySaved(c: Config, s: State, a: ActorId, j: Job, error: string, rest: seq<JobId>, after: After)
    requires At(s, a) == Releasing(j, error, rest)
    requires after == if Exhausted(j) then ThenBury(rest) else ThenDelay(s.clock + Backoff(c.base, Retried(j, error).retryCount), rest)
    ensures var j' := Retried(j, error);
            Solo(c, s, a, 3) == With(s, a, Save(DropProcessing(s.redis, j.id), j'), Continue(j', after))
  {
    var j' := Retried(j, error);
    var r1 := DropProcessing(s.redis, j.id);
    OneThen(c, s, a, r1, Saving(j', after), 2);
    WithWith(s, a, r1, Saving(j', after), Save(r1, j'), Continue(j', after));
    SaveAlone(c, With(s, a, r1, Saving(j', after)), a, j', after);
  }

  /** `retry` run alone is the one-step `Retry`. */
  lemma RetryAlone(c: Config, s: State, a: ActorId, j: Job, error: string, rest: seq<JobId>)
    requires At(s, a) == Releasing(j, error, rest)
    ensures Solo(c, s, a, 4) == With(s, a, Retry(s.redis, j, error, c.base, s.clock), AfterRetry(rest))
  {
    var j' := Retried(j, error);
    var after := if Exhausted(j) then ThenBury(rest) else ThenDelay(s.clock + Backoff(c.base, j'.retryCount), rest);
    RetrySaved(c, s, a, j, error, rest, after);
    SoloThen(c, s, a, 3, 1);
    var r3, x3 := Save(DropProcessing(s.redis, j.id), j'), Continue(j', after);
    var r4 := Retry(s.redis, j, error, c.base, s.clock);
    WithWith(s, a, r3, x3, r4, AfterRetry(rest));
    RetryPlaced(c, With(s, a, r3, x3), a, s.redis, j, error, rest, after);
    OneThen(c, With(s, a, r3, x3), a, r4, AfterRetry(rest), 0);
  }

  /** The last command of `retry`: RPUSH to the dead-letter list, or ZADD. */
  lemma RetryPlaced(c: Config, s3: State, a: ActorId, r: Redis, j: Job, error: string, rest: seq<JobId>, after: After)
    requires after == if Exhausted(j) then ThenBury(rest) else ThenDelay(s3.clock + Backoff(c.base, Retried(j, error).retryCount), rest)
    requires s3.redis == Save(DropProcessing(r, j.id), Retried(j, error)) && At(s3, a) == Continue(Retried(j, error), after)
    ensures Command(c, s3, a) == With(s3, a, Retry(r, j, error, c.base, s3.clock), AfterRetry(rest))
  {
  }

  /** How many commands a sweep issues for its ids. */
  function SweepCommands(r: Redis, rest: seq<JobId>, base: real, now: Time): nat
    decreases rest
  {
    if rest == [] then 0
    else (if rest[0] in r.jobs then 5 else 2) + SweepCommands(RecoverOne(r, rest[0], base, now), rest[1..], base, now)
  }

  lemma SweepOneAlone(c: Config, s: State, a: ActorId, rest: seq<JobId>)
    requires rest != [] && At(s, a) == Sweeping(rest)
    requires Keyed(s.redis)
    ensures Solo(c, s, a, if rest[0] in s.redis.jobs then 5 else 2) ==
            With(s, a, RecoverOne(s.redis, rest[0], c.base, s.clock), AfterRetry(rest[1..]))
  {
    var id, r := rest[0], s.redis;
    if id in r.jobs {
      var x1 := Releasing(r.jobs[id], STALE_ERROR, rest[1..]);
      OneThen(c, s, a, r, x1, 4);
      RetryAlone(c, With(s, a, r, x1), a, r.jobs[id], STALE_ERROR, rest[1..]);
      WithWith(s, a, r, x1, RecoverOne(r, id, c.base, s.clock), AfterRetry(rest[1..]));
    } else {
      var x1 := Discarding(id, rest[1..]);
      OneThen(c, s, a, r, x1, 1);
      OneThen(c, With(s, a, r, x1), a, DropProcessing(r, id), AfterRetry(rest[1..]), 0);
      WithWith(s, a, r, x1, DropProcessing(r, id), AfterRetry(rest[1..]));
    }
  }

  lemma RecoverKeyed(r: Redis, id: JobId, base: real, now: Time)
    requires Keyed(r)
    ensures Keyed(RecoverOne(r, id, base, now))
  {
  }

  lemma SweepOneThen(c: Config, s: State, a: ActorId, rest: seq<JobId>, n: nat)
    requires rest != [] && At(s, a) == Sweeping(rest) && Keyed(s.redis)
    ensures Solo(c, s, a, (if rest[0] in s.redis.jobs then 5 else 2) + n) ==
            Solo(c, With(s, a, RecoverOne(s.redis, rest[0], c.base, s.clock), AfterRetry(rest[1..])), a, n)
  {
    SweepOneAlone(c, s, a, rest);
    SoloThen(c, s, a, if rest[0] in s.redis.jobs then 5 else 2, n);
  }

  lemma SweepNothing(s: State, a: ActorId)
    requires a in s.actors && s.actors[a] == Idle
    ensures With(s, a, s.redis, Idle) == s
  {
    assert s.actors[a := Idle] == s.actors;
  }

  /** A recovery sweep run alone is the one-step `Recover` of the same ids in the same order. */
  lemma {:induction false} SweepAlone(c: Config, s: State, a: ActorId, rest: seq<JobId>)
    requires a in s.actors && s.actors[a] == AfterRetry(rest) && Keyed(s.redis)
    ensures Solo(c, s, a, SweepCommands(s.redis, rest, c.base, s.clock)) == With(s, a, Recover(s.redis, rest, c.base, s.clock), Idle)
    decreases rest
  {
    if rest == [] {
      SweepNothing(s, a);
    } else {
      var r1, x1 := RecoverOne(s.redis, rest[0], c.base, s.clock), AfterRetry(rest[1..]);
      SweepOneThen(c, s, a, rest, SweepCommands(r1, rest[1..], c.base, s.clock));
      RecoverKeyed(s.redis, rest[0], c.base, s.clock);
      SweepAlone(c, With(s, a, r1, x1), a, rest[1..]);
      WithWith(s, a, r1, x1, Recover(r1, rest[1..], c.base, s.clock), Idle);
    }
  }
}
