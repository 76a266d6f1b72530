/**
 Without new jobs the queue drains: a measure over all jobs drops at every step that moves
 a job, and as long as it is positive such a step can be taken.
 */
module Draining {
  import opened Jobs
  import opened QueueState
  import opened Lifecycle

  /** Four moves per remaining attempt: promote, dequeue, complete or fail, acknowledge. */
  ghost function Weight(r: Redis, id: JobId): nat {
    if id !in r.jobs || r.jobs[id].retryCount > r.jobs[id].maxRetries then 0
    else
      var k := r.jobs[id].maxRetries + 1 - r.jobs[id].retryCount;
      match HomeOf(r, id)
      case InDelayed => 4 * k
      case InPending => 4 * k - 1
      case InProcessing => if r.jobs[id].status == COMPLETED then 4 * k - 3 else 4 * k - 2
      case _ => 0
  }

  ghost function Sum(r: Redis, ids: set<JobId>): nat {
    if ids == {} then 0 else var id :| id in ids; Weight(r, id) + Sum(r, ids - {id})
  }

  ghost function Measure(s: System): nat {
    Sum(s.redis, s.redis.jobs.Keys)
  }

  lemma {:induction false} SumSplit(r: Redis, ids: set<JobId>, id: JobId)
    requires id in ids
    ensures Sum(r, ids) == Weight(r, id) + Sum(r, ids - {id})
    decreases ids
  {
    var pick :| pick in ids && Sum(r, ids) == Weight(r, pick) + Sum(r, ids - {pick});
    if pick != id {
      SumSplit(r, ids - {pick}, id);
      SumSplit(r, ids - {id}, pick);
      assert ids - {pick} - {id} == ids - {id} - {pick};
    }
  }

  lemma {:induction false} SumMonotone(r: Redis, r': Redis, ids: set<JobId>)
    requires forall id | id in ids :: Weight(r', id) <= Weight(r, id)
    ensures Sum(r', ids) <= Sum(r, ids)
    decreases ids
  {
    if ids != {} {
      var id :| id in ids;
      SumSplit(r, ids, id);
      SumSplit(r', ids, id);
      SumMonotone(r, r', ids - {id});
    }
  }

  lemma SumDrops(r: Redis, r': Redis, ids: set<JobId>, id: JobId)
    requires id in ids && Weight(r', id) < Weight(r, id)
    requires forall k | k in ids :: Weight(r', k) <= Weight(r, k)
    ensures Sum(r', ids) < Sum(r, ids)
  {
    SumSplit(r, ids, id);
    SumSplit(r', ids, id);
    SumMonotone(r, r', ids - {id});
  }

  /** Every job is finished: completed and acknowledged, or in the dead-letter list. */
  ghost predicate Drained(s: System) {
    forall id | id in s.redis.jobs :: HomeOf(s.redis, id) == Nowhere || HomeOf(s.redis, id) == InDeadLetter
  }

  lemma {:induction false} SumZero(r: Redis, ids: set<JobId>)
    ensures Sum(r, ids) == 0 <==> forall id | id in ids :: Weight(r, id) == 0
    decreases ids
  {
    if ids != {} {
      var id :| id in ids;
      SumSplit(r, ids, id);
      SumZero(r, ids - {id});
    }
  }

  /** The part of the invariant the measure needs. */
  ghost predicate Homed(r: Redis) {
    forall id | id in r.jobs ::
      && r.jobs[id].id == id && At(r, id, HomeOf(r, id))
      && (r.jobs[id].retryCount <= r.jobs[id].maxRetries || HomeOf(r, id) == InDeadLetter)
  }

  lemma InvHomed(p: Policy, s: System)
    requires Inv(p, s)
    ensures Homed(s.redis)
  {
    forall id | id in s.redis.jobs ensures s.redis.jobs[id].id == id && At(s.redis, id, HomeOf(s.redis, id)) { assert JobOk(p, s, id); }
  }

  lemma DrainedIffZero(s: System)
    requires Homed(s.redis)
    ensures Drained(s) <==> Measure(s) == 0
  {
    SumZero(s.redis, s.redis.jobs.Keys);
  }

  /** The steps that move some job. */
  ghost predicate Moves(s: System, e: Event) {
    match e
    case Take(_) => Promote(s.redis, s.clock).pending != []
    case Finish(_) => true
    case Settle(_) => true
    case Fail(_, _) => true
    case Sweep(order) => order != []
    case _ => false
  }

  lemma RetryDrops(r: Redis, j: Job, error: string, base: real, now: Time)
    requires Retryable(r, j, error)
    ensures var r' := QueueState.Retry(r, j, error, base, now);
            r'.jobs.Keys == r.jobs.Keys && Sum(r', r.jobs.Keys) < Sum(r, r.jobs.Keys)
  {
    var r' := QueueState.Retry(r, j, error, base, now);
    RetryHome(r, j, error, base, now);
    forall id | id in r.jobs && id != j.id ensures Weight(r', id) == Weight(r, id) {
      assert HomeOf(r', id) == HomeOf(r, id);
    }
    SumDrops(r, r', r.jobs.Keys, j.id);
  }

  lemma SweepOneDrops(p: Policy, s: System, id: JobId)
    requires Inv(p, s) && id in s.redis.processing
    ensures Measure(SweepOne(p, s, id)) < Measure(s) && SweepOne(p, s, id).redis.jobs.Keys == s.redis.jobs.Keys
  {
    assert JobOk(p, s, id);
    HistoryGrows(s.redis.jobs[id], STALE_ERROR);
    RetryDrops(s.redis, s.redis.jobs[id], STALE_ERROR, p.base, s.clock);
  }

  lemma {:induction false} SweepDrops(p: Policy, s: System, order: seq<JobId>)
    requires Inv(p, s) && Distinct(order) && NoLiveHolder(s, order)
    requires forall id | id in order :: id in s.redis.processing
    ensures if order == [] then SweepAll(p, s, order) == s else Measure(SweepAll(p, s, order)) < Measure(s)
    decreases order
  {
    if order != [] {
      TailDistinct(order);
      SweepOneDrops(p, s, order[0]);
      SweepOneInv(p, s, order[0]);
      SweepDrops(p, SweepOne(p, s, order[0]), order[1..]);
    }
  }

  lemma FailDrops(p: Policy, s: System, w: WorkerId, error: string)
    requires Inv(p, s) && Enabled(p, s, Fail(w, error))
    ensures Measure(Next(p, s, Fail(w, error))) < Measure(s)
  {
    assert JobOk(p, s, s.live[w].id);
    HistoryGrows(s.live[w], error);
    RetryDrops(s.redis, FailedAttempt(s.live[w], error), error, p.base, s.clock);
  }

  lemma SaveWeights(r: Redis, j: Job)
    requires j.id in r.jobs && j.SameWork(r.jobs[j.id]) && j.retryCount == r.jobs[j.id].retryCount <= j.maxRetries
    requires r.jobs[j.id].status == RUNNING && HomeOf(r, j.id) == InProcessing
    ensures var r' := Save(r, j);
            && r'.jobs.Keys == r.jobs.Keys
            && (j.status == RUNNING ==> Sum(r', r.jobs.Keys) <= Sum(r, r.jobs.Keys))
            && (j.status == COMPLETED ==> Sum(r', r.jobs.Keys) < Sum(r, r.jobs.Keys))
  {
    var r' := Save(r, j);
    assert r'.jobs.Keys == r.jobs.Keys;
    forall id | id in r.jobs ensures HomeOf(r', id) == HomeOf(r, id) && (id != j.id ==> Weight(r', id) == Weight(r, id)) {
    }
    if j.status == COMPLETED { SumDrops(r, r', r.jobs.Keys, j.id); }
    if j.status == RUNNING { SumMonotone(r, r', r.jobs.Keys); }
  }

  lemma SettleDrops(r: Redis, gone: JobId)
    requires gone in r.jobs && HomeOf(r, gone) == InProcessing && At(r, gone, InProcessing) && r.jobs[gone].retryCount <= r.jobs[gone].maxRetries
    ensures Sum(QueueState.Ack(r, gone), r.jobs.Keys) < Sum(r, r.jobs.Keys)
  {
    var r' := QueueState.Ack(r, gone);
    forall id | id in r.jobs && id != gone ensures Weight(r', id) == Weight(r, id) {
      assert HomeOf(r', id) == HomeOf(r, id);
    }
    SumDrops(r, r', r.jobs.Keys, gone);
  }

  lemma PromoteWeights(r: Redis, now: Time)
    requires Homed(r)
    ensures Sum(Promote(r, now), r.jobs.Keys) <= Sum(r, r.jobs.Keys)
  {
    var r' := Promote(r, now);
    forall id | id in r.jobs ensures Weight(r', id) <= Weight(r, id) {
      PromoteHomes(r, now, id);
    }
    SumMonotone(r, r', r.jobs.Keys);
  }

  lemma PopDrops(r: Redis, now: Time)
    requires Contained(r) && Homed(r) && r.pending != []
    ensures var r' := Pop(r, now).0; r'.jobs.Keys == r.jobs.Keys && Sum(r', r.jobs.Keys) < Sum(r, r.jobs.Keys)
  {
    var top := r.pending[0];
    var r' := Pop(r, now).0;
    assert r'.jobs.Keys == r.jobs.Keys;
    PopHomes(r, now, top);
    assert HomeOf(r, top) == InPending;
    forall id | id in r.jobs && id != top ensures Weight(r', id) == Weight(r, id) {
      PopHomes(r, now, id);
    }
    SumDrops(r, r', r.jobs.Keys, top);
  }

  lemma TakeDrops(p: Policy, s: System, w: WorkerId)
    requires Inv(p, s)
    ensures Measure(Next(p, s, Take(w))) <= Measure(s)
    ensures Moves(s, Take(w)) ==> Measure(Next(p, s, Take(w))) < Measure(s)
  {
    var s1 := s.(redis := Promote(s.redis, s.clock));
    InvHomed(p, s);
    PromoteInv(p, s);
    InvHomed(p, s1);
    PromoteWeights(s.redis, s.clock);
    if s1.redis.pending != [] { PopDrops(s1.redis, s1.clock); } else { assert PopStep(s1, w) == s1; }
  }

  /** Every step that moves a job lowers the measure; no other step but a submission raises it. */
  lemma MeasureStep(p: Policy, s: System, e: Event)
    requires Inv(p, s) && Enabled(p, s, e) && !e.Submit?
    ensures Measure(Next(p, s, e)) <= Measure(s)
    ensures Moves(s, e) ==> Measure(Next(p, s, e)) < Measure(s)
  {
    if e.Report? || e.Finish? || e.Settle? { assert JobOk(p, s, s.live[e.w].id); }
    match e
    case Take(w) => TakeDrops(p, s, w);
    case Report(w, progress, stage) => SaveWeights(s.redis, Reported(s.live[w], progress, stage));
    case Finish(w) => SaveWeights(s.redis, CompletedAttempt(s.live[w]));
    case Settle(w) => SettleDrops(s.redis, s.live[w].id);
    case Fail(w, error) => FailDrops(p, s, w, error);
    case Crash(w) =>
    case Sweep(order) => SweepDrops(p, s, order);
    case Tick(d) =>
  }

  /** How many steps of a run move a job. */
  ghost function MoveCount(p: Policy, s: System, es: seq<Event>): nat
    decreases es
  {
    if es == [] then 0 else (if Moves(s, es[0]) then 1 else 0) + MoveCount(p, Next(p, s, es[0]), es[1..])
  }

  ghost predicate NoSubmissions(es: seq<Event>) {
    forall i | 0 <= i < |es| :: !es[i].Submit?
  }

  /** Without submissions a run can move jobs at most `Measure` times, however long it is. */
  lemma {:induction false} MovesBounded(p: Policy, s: System, es: seq<Event>)
    requires Inv(p, s) && Valid(p, s, es) && NoSubmissions(es)
    ensures MoveCount(p, s, es) + Measure(Run(p, s, es)) <= Measure(s)
    decreases es
  {
    if es != [] {
      InvStep(p, s, es[0]);
      MeasureStep(p, s, es[0]);
      MovesBounded(p, Next(p, s, es[0]), es[1..]);
    }
  }

  // ----- Parts of runs -----

  lemma {:induction false} EnumerationExists(ids: set<JobId>) returns (order: seq<JobId>)
    ensures Enumerates(order, ids)
  {
    if ids == {} {
      order := [];
    } else {
      var id :| id in ids;
      var rest := EnumerationExists(ids - {id});
      order := [id] + rest;
    }
  }

  lemma UnfinishedJob(p: Policy, s: System) returns (id: JobId)
    requires Inv(p, s) && !Drained(s)
    ensures id in s.redis.pending || (id in s.redis.processing && id !in s.redis.delayed) || (id in s.redis.delayed && s.redis.delayed[id] >= 0.0)
  {
    id :| id in s.redis.jobs && HomeOf(s.redis, id) != Nowhere && HomeOf(s.redis, id) != InDeadLetter;
    assert JobOk(p, s, id);
  }

  lemma {:induction false} RunAppend(p: Policy, s: System, es: seq<Event>, fs: seq<Event>)
    requires Valid(p, s, es) && Valid(p, Run(p, s, es), fs)
    ensures Valid(p, s, es + fs) && Run(p, s, es + fs) == Run(p, Run(p, s, es), fs)
    decreases es
  {
    if es == [] {
      assert es + fs == fs;
    } else {
      assert (es + fs)[1..] == es[1..] + fs;
      RunAppend(p, Next(p, s, es[0]), es[1..], fs);
    }
  }

  lemma OneEvent(p: Policy, s: System, e: Event)
    requires Enabled(p, s, e)
    ensures Valid(p, s, [e]) && Run(p, s, [e]) == Next(p, s, e)
  {
    assert [e][1..] == [];
  }

  /** The drained state, in terms of the records: every job is COMPLETED, or FAILED with its retries used up. */
  lemma DrainedMeansDone(p: Policy, s: System, id: JobId)
    requires Inv(p, s) && Drained(s) && id in s.redis.jobs
    ensures s.redis.jobs[id].status == COMPLETED
         || (s.redis.jobs[id].status == FAILED && id in s.redis.deadLetter && s.redis.jobs[id].retryCount == s.redis.jobs[id].maxRetries + 1)
  {
    assert JobOk(p, s, id);
  }

  // ----- Fair runs drain -----

  /** The measure with the number of live workers: no step but a submission raises it, and it drops when a worker stops, too. */
  ghost function Load(s: System): nat {
    2 * Measure(s) + |s.live|
  }

  /** The steps that move a job or end an attempt. */
  ghost predicate Acts(s: System, e: Event) {
    Moves(s, e) || e.Crash?
  }

  lemma SweepLive(p: Policy, s: System, order: seq<JobId>)
    ensures SweepAll(p, s, order).live == s.live
    decreases order
  {
    if order != [] { SweepLive(p, SweepOne(p, s, order[0]), order[1..]); }
  }

  lemma LiveCount(p: Policy, s: System, e: Event)
    requires Enabled(p, s, e)
    ensures var s' := Next(p, s, e);
            && (e.Take? && Moves(s, e) ==> |s'.live| <= |s.live| + 1)
            && (e.Crash? ==> |s'.live| < |s.live|)
            && (!(e.Take? && Moves(s, e)) ==> |s'.live| <= |s.live|)
  {
    match e
    case Sweep(order) => SweepLive(p, s, order);
    case Take(w) =>
    case Report(w, _, _) => assert s.live[w := Reported(s.live[w], e.progress, e.stage)].Keys == s.live.Keys;
    case Finish(w) => assert s.live[w := CompletedAttempt(s.live[w])].Keys == s.live.Keys;
    case Settle(w) =>
    case Fail(w, _) =>
    case Crash(w) =>
    case _ =>
  }

  lemma LoadStep(p: Policy, s: System, e: Event)
    requires Inv(p, s) && Enabled(p, s, e) && !e.Submit?
    ensures Load(Next(p, s, e)) <= Load(s)
    ensures Acts(s, e) ==> Load(Next(p, s, e)) < Load(s)
  {
    MeasureStep(p, s, e);
    LiveCount(p, s, e);
  }

  /** A step without effect on anything but the clock, if nobody is at work. */
  lemma QuietStep(p: Policy, s: System, e: Event)
    requires Inv(p, s) && Enabled(p, s, e) && !e.Submit? && !Acts(s, e) && s.live == map[]
    ensures Next(p, s, e) == s.(clock := Next(p, s, e).clock) && Next(p, s, e).clock >= s.clock
  {
  }

  /** Long enough after s, everything it has delayed is due and everything it has in processing is stale. */
  ghost predicate Ripe(p: Policy, s: System, now: Time) {
    && (forall id | id in s.redis.delayed :: s.redis.delayed[id] <= now)
    && (forall id | id in s.redis.processing :: s.redis.processing[id] + p.older <= now)
  }

  /** Some worker makes a turn that ends its attempt or completes its job. */
  predicate TurnOf(e: Event, w: WorkerId) {
    (e.Finish? || e.Settle? || e.Fail? || e.Crash?) && e.w == w
  }

  ghost predicate HasTurn(es: seq<Event>, w: WorkerId) {
    exists i :: 0 <= i < |es| && TurnOf(es[i], w)
  }

  ghost predicate PollsRipe(p: Policy, s: System, es: seq<Event>) {
    exists i :: 0 <= i < |es| && es[i].Take? && Ripe(p, s, Run(p, s, es[..i]).clock)
  }

  ghost predicate SweepsRipe(p: Policy, s: System, es: seq<Event>) {
    exists i :: 0 <= i < |es| && es[i].Sweep? && Ripe(p, s, Run(p, s, es[..i]).clock)
  }

  /**
   A round from s: every worker then at work has a turn, and once everything in the queue has become ripe somebody
   polls and a sweep runs.
   */
  ghost predicate Round(p: Policy, s: System, es: seq<Event>) {
    && Valid(p, s, es) && NoSubmissions(es)
    && (forall w | w in s.live :: HasTurn(es, w))
    && PollsRipe(p, s, es) && SweepsRipe(p, s, es)
  }

  /** No step of the run moves a job or ends an attempt. */
  ghost predicate Quiet(p: Policy, s: System, es: seq<Event>)
    decreases es
  {
    es == [] || (!Acts(s, es[0]) && Quiet(p, Next(p, s, es[0]), es[1..]))
  }

  lemma {:induction false} LoadRun(p: Policy, s: System, es: seq<Event>)
    requires Inv(p, s) && Valid(p, s, es) && NoSubmissions(es)
    ensures if Quiet(p, s, es) then Load(Run(p, s, es)) <= Load(s) else Load(Run(p, s, es)) < Load(s)
    decreases es
  {
    if es != [] {
      InvStep(p, s, es[0]);
      LoadStep(p, s, es[0]);
      LoadRun(p, Next(p, s, es[0]), es[1..]);
    }
  }

  lemma {:induction false} QuietAt(p: Policy, s: System, es: seq<Event>, i: nat)
    requires Quiet(p, s, es) && i < |es|
    ensures !Acts(Run(p, s, es[..i]), es[i])
    decreases es
  {
    if i > 0 {
      QuietAt(p, Next(p, s, es[0]), es[1..], i - 1);
      assert es[..i][1..] == es[1..][..i - 1];
    }
  }

  /** With nobody at work a quiet run changes nothing but the clock. */
  lemma {:induction false} QuietIdle(p: Policy, s: System, es: seq<Event>, i: nat)
    requires Inv(p, s) && Valid(p, s, es) && NoSubmissions(es) && Quiet(p, s, es) && s.live == map[] && i < |es|
    ensures var t := Run(p, s, es[..i]); t == s.(clock := t.clock) && t.clock >= s.clock && Enabled(p, t, es[i])
    decreases es
  {
    if i > 0 {
      InvStep(p, s, es[0]);
      QuietStep(p, s, es[0]);
      QuietIdle(p, Next(p, s, es[0]), es[1..], i - 1);
      assert es[..i][1..] == es[1..][..i - 1];
    }
  }

  /** With nobody at work a round in which nothing happens shows a drained queue. */
  lemma QuietIsDrained(p: Policy, s: System, es: seq<Event>)
    requires Inv(p, s) && Round(p, s, es) && Quiet(p, s, es) && s.live == map[]
    ensures Drained(s)
  {
    if !Drained(s) {
      var id := UnfinishedJob(p, s);
      var i :| 0 <= i < |es| && es[i].Take? && Ripe(p, s, Run(p, s, es[..i]).clock);
      var k :| 0 <= k < |es| && es[k].Sweep? && Ripe(p, s, Run(p, s, es[..k]).clock);
      QuietAt(p, s, es, i);
      QuietAt(p, s, es, k);
      QuietIdle(p, s, es, i);
      QuietIdle(p, s, es, k);
      QuietMoves(p, s, id, Run(p, s, es[..i]).clock, Run(p, s, es[..k]).clock, es[i], es[k]);
    }
  }

  /** Once everything is ripe an unfinished job that nobody holds moves at the next poll or sweep. */
  lemma QuietMoves(p: Policy, s: System, id: JobId, polled: Time, swept: Time, take: Event, sweep: Event)
    requires Ripe(p, s, polled) && Ripe(p, s, swept) && s.live == map[] && take.Take? && sweep.Sweep?
    requires id in s.redis.pending || id in s.redis.processing || (id in s.redis.delayed && s.redis.delayed[id] >= 0.0)
    requires Enabled(p, s.(clock := swept), sweep)
    ensures Acts(s.(clock := polled), take) || Acts(s.(clock := swept), sweep)
  {
    if id in s.redis.processing {
      assert id in StaleSet(s.redis, p.older, swept);
      assert id in sweep.order;
    } else {
      DueDistinct(s.redis.delayed, polled);
      if id !in s.redis.pending { assert id in DueList(s.redis.delayed, polled); }
      assert id in Promote(s.redis, polled).pending;
    }
  }

  /** In a quiet round nobody was at work. */
  lemma QuietNobodyWorks(p: Policy, s: System, es: seq<Event>)
    requires Round(p, s, es) && Quiet(p, s, es)
    ensures s.live == map[]
  {
    if w :| w in s.live {
      var i :| 0 <= i < |es| && TurnOf(es[i], w);
      QuietAt(p, s, es, i);
    }
  }

  /** A round in a queue that is not drained lowers the load. */
  lemma RoundDrops(p: Policy, s: System, es: seq<Event>)
    requires Inv(p, s) && Round(p, s, es) && !Drained(s)
    ensures Load(Run(p, s, es)) < Load(s)
  {
    LoadRun(p, s, es);
    if Quiet(p, s, es) {
      QuietNobodyWorks(p, s, es);
      QuietIsDrained(p, s, es);
    }
  }

  ghost predicate Rounds(p: Policy, s: System, rounds: seq<seq<Event>>)
    decreases rounds
  {
    rounds == [] || (Round(p, s, rounds[0]) && Rounds(p, Run(p, s, rounds[0]), rounds[1..]))
  }

  ghost function RunRounds(p: Policy, s: System, rounds: seq<seq<Event>>): System
    decreases rounds
  {
    if rounds == [] then s else RunRounds(p, Run(p, s, rounds[0]), rounds[1..])
  }

  /** Fair runs drain: after as many rounds as the load at the start, whatever else happens in them, the queue is drained. */
  lemma {:induction false} FairRoundsDrain(p: Policy, s: System, rounds: seq<seq<Event>>)
    requires Inv(p, s) && Rounds(p, s, rounds) && (|rounds| >= Load(s) || Drained(s))
    ensures Drained(RunRounds(p, s, rounds)) && Inv(p, RunRounds(p, s, rounds))
    decreases rounds
  {
    InvHomed(p, s);
    DrainedIffZero(s);
    if rounds != [] {
      var t := Run(p, s, rounds[0]);
      InvRun(p, s, rounds[0]);
      InvHomed(p, t);
      DrainedIffZero(t);
      if Drained(s) { MovesBounded(p, s, rounds[0]); } else { RoundDrops(p, s, rounds[0]); }
      FairRoundsDrain(p, t, rounds[1..]);
    }
  }

  // ----- Rounds exist -----

  lemma TurnInFront(e: Event, es: seq<Event>, w: WorkerId)
    ensures TurnOf(e, w) ==> HasTurn([e] + es, w)
    ensures HasTurn(es, w) ==> HasTurn([e] + es, w)
  {
    if TurnOf(e, w) { assert ([e] + es)[0] == e; }
    if i :| 0 <= i < |es| && TurnOf(es[i], w) { assert ([e] + es)[i + 1] == es[i]; }
  }

  lemma TurnBehind(es: seq<Event>, fs: seq<Event>, w: WorkerId)
    requires HasTurn(es, w)
    ensures HasTurn(es + fs, w)
  {
    var i :| 0 <= i < |es| && TurnOf(es[i], w);
    assert (es + fs)[i] == es[i];
  }

  /** Every live worker stops. */
  lemma {:induction false} AllStop(p: Policy, s: System) returns (es: seq<Event>)
    ensures Valid(p, s, es) && NoSubmissions(es) && Run(p, s, es) == s.(live := map[])
    ensures forall w | w in s.live :: HasTurn(es, w)
    decreases s.live
  {
    if w :| w in s.live {
      var t := Next(p, s, Crash(w));
      var rest := AllStop(p, t);
      es := [Crash(w)] + rest;
      assert es[1..] == rest;
      forall v | v in s.live ensures HasTurn(es, v) {
        if v != w { assert v in t.live; }
        TurnInFront(Crash(w), rest, v);
      }
    } else {
      es := [];
      assert s.live == map[];
    }
  }

  lemma {:induction false} Latest(times: map<JobId, Time>, now: Time) returns (t: Time)
    ensures t >= now && forall id | id in times :: times[id] <= t
    decreases times
  {
    t := now;
    if id :| id in times {
      var rest := times - {id};
      t := Latest(rest, if times[id] > now then times[id] else now);
      forall k | k in times ensures times[k] <= t {
        if k != id { assert k in rest && rest[k] == times[k]; }
      }
    }
  }

  lemma RipeTime(p: Policy, s: System) returns (now: Time)
    ensures now >= s.clock && Ripe(p, s, now)
  {
    var due := Latest(s.redis.delayed, s.clock);
    var taken := Latest(s.redis.processing, due);
    now := if p.older > 0.0 then taken + p.older else taken;
  }

  lemma ThreeEvents(p: Policy, s: System, d: Event, e: Event, f: Event)
    requires Enabled(p, s, d) && Enabled(p, Next(p, s, d), e) && Enabled(p, Next(p, Next(p, s, d), e), f)
    ensures var es := [d, e, f];
            Valid(p, s, es) && Run(p, s, es[..1]) == Next(p, s, d) && Run(p, s, es[..2]) == Next(p, Next(p, s, d), e)
  {
    var s1, es := Next(p, s, d), [d, e, f];
    var s2 := Next(p, s1, e);
    OneEvent(p, s, d);
    OneEvent(p, s1, e);
    OneEvent(p, s2, f);
    RunAppend(p, s, [d], [e]);
    RunAppend(p, s, [d] + [e], [f]);
    assert es[..1] == [d] && es[..2] == [d] + [e] && es == [d] + [e] + [f];
  }

  /** With nobody at work, somebody can wait until all is ripe, sweep, and poll. */
  lemma SweepAndPoll(p: Policy, s: System, now: Time) returns (order: seq<JobId>)
    requires Inv(p, s) && s.live == map[] && now >= s.clock
    ensures var es := [Tick(now - s.clock), Sweep(order), Take(0)];
            && Valid(p, s, es) && Run(p, s, es[..1]).clock == now && Run(p, s, es[..2]).clock == now
  {
    var s1 := Next(p, s, Tick(now - s.clock));
    InvStep(p, s, Tick(now - s.clock));
    order := SweepEnabled(p, s1);
    ThreeEvents(p, s, Tick(now - s.clock), Sweep(order), Take(0));
  }

  lemma SweepEnabled(p: Policy, s: System) returns (order: seq<JobId>)
    requires Inv(p, s) && s.live == map[]
    ensures Enabled(p, s, Sweep(order)) && Next(p, s, Sweep(order)).live == map[] && Next(p, s, Sweep(order)).clock == s.clock
  {
    order := EnumerationExists(StaleSet(s.redis, p.older, s.clock));
    SweepInv(p, s, order);
  }

  /** From every state of a run a round can be run. */
  lemma RoundExists(p: Policy, s: System) returns (es: seq<Event>)
    requires Inv(p, s)
    ensures Round(p, s, es)
  {
    var stops := AllStop(p, s);
    var now := RipeTime(p, s);
    var t := s.(live := map[]);
    InvRun(p, s, stops);
    var order := SweepAndPoll(p, t, now);
    var rest := [Tick(now - s.clock), Sweep(order), Take(0)];
    es := stops + rest;
    RoundOf(p, s, stops, rest, now);
  }

  lemma {:induction false} PrefixValid(p: Policy, s: System, es: seq<Event>, n: nat)
    requires Valid(p, s, es) && n <= |es|
    ensures Valid(p, s, es[..n])
    decreases es
  {
    if n > 0 {
      PrefixValid(p, Next(p, s, es[0]), es[1..], n - 1);
      assert es[..n][1..] == es[1..][..n - 1];
    }
  }

  lemma PrefixRun(p: Policy, s: System, stops: seq<Event>, rest: seq<Event>, k: nat)
    requires Valid(p, s, stops) && Valid(p, Run(p, s, stops), rest) && k <= |rest|
    ensures Run(p, s, (stops + rest)[..|stops| + k]) == Run(p, Run(p, s, stops), rest[..k])
  {
    assert (stops + rest)[..|stops| + k] == stops + rest[..k];
    PrefixValid(p, Run(p, s, stops), rest, k);
    RunAppend(p, s, stops, rest[..k]);
  }

  lemma RoundOf(p: Policy, s: System, stops: seq<Event>, rest: seq<Event>, now: Time)
    requires Valid(p, s, stops) && Valid(p, Run(p, s, stops), rest)
    requires NoSubmissions(stops) && NoSubmissions(rest) && (forall w | w in s.live :: HasTurn(stops, w)) && Ripe(p, s, now)
    requires |rest| == 3 && rest[0].Tick? && rest[1].Sweep? && rest[2].Take?
    requires Run(p, Run(p, s, stops), rest[..1]).clock == now && Run(p, Run(p, s, stops), rest[..2]).clock == now
    ensures Round(p, s, stops + rest)
  {
    var es, n := stops + rest, |stops|;
    RunAppend(p, s, stops, rest);
    forall w | w in s.live ensures HasTurn(es, w) { TurnBehind(stops, rest, w); }
    PrefixRun(p, s, stops, rest, 1);
    PrefixRun(p, s, stops, rest, 2);
    NoneSubmitted(stops, rest);
    RipeAt(p, s, es, n + 1, now);
    RipeAt(p, s, es, n + 2, now);
  }

  lemma NoneSubmitted(es: seq<Event>, fs: seq<Event>)
    requires NoSubmissions(es) && NoSubmissions(fs)
    ensures NoSubmissions(es + fs)
  {
  }

  lemma RipeAt(p: Policy, s: System, es: seq<Event>, i: nat, now: Time)
    requires i < |es| && Ripe(p, s, now) && Run(p, s, es[..i]).clock == now
    ensures es[i].Take? ==> PollsRipe(p, s, es)
    ensures es[i].Sweep? ==> SweepsRipe(p, s, es)
  {
  }

  lemma OneRound(p: Policy, s: System) returns (es: seq<Event>)
    requires Inv(p, s) && !Drained(s)
    ensures Valid(p, s, es) && NoSubmissions(es) && Inv(p, Run(p, s, es)) && Load(Run(p, s, es)) < Load(s)
  {
    es := RoundExists(p, s);
    RoundDrops(p, s, es);
    InvRun(p, s, es);
  }

  /**
   So from every state of a run some continuation without submissions ends with every job completed and
   acknowledged, or dead-lettered.
   */
  lemma {:induction false} QueueDrains(p: Policy, s: System) returns (es: seq<Event>)
    requires Inv(p, s)
    ensures Valid(p, s, es) && NoSubmissions(es) && Drained(Run(p, s, es))
    decreases Load(s)
  {
    if Drained(s) {
      es := [];
    } else {
      var first := OneRound(p, s);
      var rest := QueueDrains(p, Run(p, s, first));
      RunAppend(p, s, first, rest);
      es := first + rest;
    }
  }
}
