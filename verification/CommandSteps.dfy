/**
 The job protocol one command at a time. Every step is one atomic Redis command or one
 vector-store upsert of one actor; any number of enqueuing requests, workers and recovery
 loops interleave in any way, and an actor may stop anywhere.

 This module has the steps and the invariant they keep; what that says about every run is in
 `JobGuarantees`.
 */
module CommandSteps {
  import opened Wrappers
  import opened Jobs
  import opened QueueState
  import opened Uploads

  type ActorId = nat

  datatype Config = Config(svc: Services, mode: DetectionMode, base: real, older: real)

  /**
   What an actor goes on to do after the two commands of `_save`. `rest` is what a recovery sweep still
   has to look at.
   */
  datatype After = ThenPush | ThenValidate | ThenProcess | ThenUpload | ThenComplete | ThenAck
                 | ThenBury(rest: seq<JobId>) | ThenDelay(readyAt: Time, rest: seq<JobId>)

  /** Where an actor stands: each constructor names the command it issues next. */
  datatype Actor =
    | Idle
    | Saving(job: Job, after: After)                                // SET job:{id}
    | Indexing(job: Job, after: After)                              // SET product:{id}:job_id
    | Pushing(job: Job)                                             // RPUSH pending
    | Promoting(due: seq<JobId>)                                    // ZREM the first due id, or LPOP if none is left
    | PromotePush(id: JobId, due: seq<JobId>)                       // RPUSH pending
    | Fetching(id: JobId)                                           // GET job:{id}
    | Claiming(job: Job)                                            // HSET processing
    | Uploading(job: Job)                                           // everything before the first upsert
    | PuttingImage(job: Job, plan: Plan)                            // upsert_image
    | PuttingText(job: Job, plan: Plan)                             // upsert_text
    | Acking(job: Job)                                              // HDEL processing
    | Releasing(job: Job, error: string, rest: seq<JobId>)          // HDEL processing, at the head of `retry`
    | Burying(id: JobId, rest: seq<JobId>)                          // RPUSH dead_letter
    | Delaying(id: JobId, readyAt: Time, rest: seq<JobId>)          // ZADD delayed
    | Sweeping(rest: seq<JobId>)                                    // GET the first stale id
    | Discarding(id: JobId, rest: seq<JobId>)                       // HDEL processing, for a stale id with no record

  /**
   `issued`, `pushed`, `completed` and `dropped` record the history; no step reads them but to mint
   fresh identifiers.
   */
  datatype State = State(redis: Redis, store: Store, clock: Time, actors: map<ActorId, Actor>,
                         issued: map<JobId, Job>, pushed: set<JobId>, completed: set<JobId>, dropped: set<JobId>)

  /** `now` is the clock as an actor read it before it asked for the due or the stale ids. */
  datatype Event =
    | Submit(a: ActorId, job: Job)
    | Poll(a: ActorId, now: Time)
    | Sweep(a: ActorId, order: seq<JobId>, now: Time)
    | Advance(a: ActorId)
    | Fail(a: ActorId, error: string)
    | Crash(a: ActorId)
    | Tick(d: Time)

  function At(s: State, a: ActorId): Actor {
    if a in s.actors then s.actors[a] else Idle
  }

  function Put(s: State, a: ActorId, x: Actor): State {
    s.(actors := s.actors[a := x])
  }

  function Initial(store: Store): State {
    State(EMPTY, store, 0.0, map[], map[], {}, {}, {})
  }

  // ----- Steps -----

  function AfterRetry(rest: seq<JobId>): Actor {
    if rest == [] then Idle else Sweeping(rest)
  }

  /** What comes after a completed save: the in-memory changes up to the next command. */
  function Continue(j: Job, after: After): Actor {
    match after
    case ThenPush => Pushing(j)
    case ThenValidate => Saving(Reported(j, 10, VALIDATING), ThenProcess)
    case ThenProcess => Saving(Reported(j, 40, PROCESSING), ThenUpload)
    case ThenUpload => Uploading(j)
    case ThenComplete => Saving(CompletedAttempt(j), ThenAck)
    case ThenAck => Acking(j)
    case ThenBury(rest) => Burying(j.id, rest)
    case ThenDelay(readyAt, rest) => Delaying(j.id, readyAt, rest)
  }

  /** Inside the try block of `process_one`, where an exception leads to `_fail`. */
  predicate Guarded(x: Actor) {
    match x
    case Saving(_, after) => after.ThenProcess? || after.ThenUpload? || after.ThenComplete?
    case Indexing(_, after) => after.ThenProcess? || after.ThenUpload? || after.ThenComplete?
    case Uploading(_) => true
    case PuttingImage(_, _) => true
    case PuttingText(_, _) => true
    case _ => false
  }

  function FailedWith(j: Job, error: string): Actor {
    Releasing(FailedAttempt(j, error), error, [])
  }

  ghost predicate Enabled(c: Config, s: State, e: Event) {
    match e
    case Submit(a, j) =>
      && At(s, a).Idle? && Jobs.Fresh(j) && j.id !in s.issued
      && (forall id | id in s.issued :: s.issued[id].productId != j.productId)
      && j.productId !in s.store.images && j.productId !in s.store.texts
    case Poll(a, now) => At(s, a).Idle? && now <= s.clock
    case Sweep(a, order, now) => At(s, a).Idle? && now <= s.clock && Enumerates(order, StaleSet(s.redis, c.older, now))
    case Advance(a) => !At(s, a).Idle?
    case Fail(a, _) => Guarded(At(s, a))
    case Crash(a) => true
    case Tick(d) => d >= 0.0
  }

  /** One command of an actor. */
  ghost function Command(c: Config, s: State, a: ActorId): State {
    var r := s.redis;
    match At(s, a)
    case Idle => s
    case Saving(j, after) =>
      Put(s, a, Indexing(j, after)).(redis := SetJob(r, j), completed := if after.ThenAck? then s.completed + {j.id} else s.completed)
    case Indexing(j, after) => Put(s, a, Continue(j, after)).(redis := SetIndex(r, j))
    case Pushing(j) => Put(s, a, Idle).(redis := PushPending(r, j.id), pushed := s.pushed + {j.id})
    case Promoting(due) =>
      if due != [] then Put(s, a, PromotePush(due[0], due[1..])).(redis := DropDelayed(r, due[0]))
      else if r.pending == [] then Put(s, a, Idle)
      else Put(s, a, Fetching(r.pending[0])).(redis := r.(pending := r.pending[1..]))
    case PromotePush(id, due) => Put(s, a, Promoting(due)).(redis := PushPending(r, id))
    case Fetching(id) => Put(s, a, if id in r.jobs then Claiming(r.jobs[id]) else Idle)
    case Claiming(j) =>
      Put(s, a, Saving(Started(j), ThenValidate)).(redis := r.(processing := r.processing[j.id := s.clock]))
    case Uploading(j) =>
      (match Prepare(c.svc, c.mode, j.payload, s.store)
       case Err(e) => Put(s, a, FailedWith(j, Message(e)))
       case Ok(plan) => Put(s, a, PuttingImage(j, plan)))
    case PuttingImage(j, plan) => Put(s, a, PuttingText(j, plan)).(store := PutImage(s.store, j.productId, plan))
    case PuttingText(j, plan) =>
      Put(s, a, Saving(Reported(j, 80, CACHING), ThenComplete)).(store := PutText(s.store, j.productId, plan))
    case Acking(j) => Put(s, a, Idle).(redis := DropProcessing(r, j.id))
    case Releasing(j, error, rest) =>
      var j' := Retried(j, error);
      var after := if Exhausted(j) then ThenBury(rest) else ThenDelay(s.clock + Backoff(c.base, j'.retryCount), rest);
      Put(s, a, Saving(j', after)).(redis := DropProcessing(r, j.id))
    case Burying(id, rest) => Put(s, a, AfterRetry(rest)).(redis := r.(deadLetter := r.deadLetter + [id]))
    case Delaying(id, readyAt, rest) => Put(s, a, AfterRetry(rest)).(redis := r.(delayed := r.delayed[id := readyAt]))
    case Sweeping(rest) =>
      if rest == [] then Put(s, a, Idle)
      else if rest[0] in r.jobs then Put(s, a, Releasing(r.jobs[rest[0]], STALE_ERROR, rest[1..]))
      else Put(s, a, Discarding(rest[0], rest[1..]))
    case Discarding(id, rest) => Put(s, a, AfterRetry(rest)).(redis := DropProcessing(r, id))
  }

  ghost function Next(c: Config, s: State, e: Event): State {
    match e
    case Submit(a, j) => Put(s, a, Saving(j, ThenPush)).(issued := s.issued[j.id := j])
    case Poll(a, now) => Put(s, a, Promoting(DueList(s.redis.delayed, now)))
    case Sweep(a, order, _) => Put(s, a, AfterRetry(order))
    case Advance(a) => Command(c, s, a)
    case Fail(a, error) => if Guarded(At(s, a)) then Put(s, a, FailedWith(At(s, a).job, error)) else s
    case Crash(a) => Put(s, a, Idle).(dropped := s.dropped + HeldBy(At(s, a)))
    case Tick(d) => s.(clock := s.clock + d)
  }

  /** Runs, as sequences of events from the first to the last. */
  ghost predicate Valid(c: Config, s: State, es: seq<Event>)
    decreases es
  {
    es == [] || (Enabled(c, s, es[0]) && Valid(c, Next(c, s, es[0]), es[1..]))
  }

  ghost function Run(c: Config, s: State, es: seq<Event>): State
    decreases es
  {
    if es == [] then s else Run(c, Next(c, s, es[0]), es[1..])
  }

  // ----- Where a job can be -----

  /** The id an actor has taken out of one container and not yet put into the next. */
  function HeldBy(x: Actor): set<JobId> {
    match x
    case PromotePush(id, _) => {id}
    case Fetching(id) => {id}
    case Claiming(j) => {j.id}
    case Saving(j, after) => if after.ThenBury? || after.ThenDelay? then {j.id} else {}
    case Indexing(j, after) => if after.ThenBury? || after.ThenDelay? then {j.id} else {}
    case Burying(id, _) => {id}
    case Delaying(id, _, _) => {id}
    case _ => {}
  }

  ghost predicate Stored(s: State, id: JobId) {
    id in s.redis.pending || id in s.redis.processing || id in s.redis.delayed || id in s.redis.deadLetter || id in s.completed
  }

  ghost predicate HeldByOther(s: State, a: ActorId, id: JobId) {
    exists b :: b != a && id in HeldBy(At(s, b))
  }

  /** In one of the four containers, mid-handoff in an actor's hands, or completed at least once. */
  ghost predicate Accounted(s: State, id: JobId) {
    Stored(s, id) || exists a :: id in HeldBy(At(s, a))
  }

  // ----- Every id that occurs has its record -----

  function Elements(ids: seq<JobId>): set<JobId> {
    set id | id in ids
  }

  function RestOf(after: After): set<JobId> {
    match after
    case ThenBury(rest) => Elements(rest)
    case ThenDelay(_, rest) => Elements(rest)
    case _ => {}
  }

  /** The ids whose records an actor relies on. */
  function Mentions(x: Actor): set<JobId> {
    match x
    case Idle => {}
    case Saving(j, after) => (if after.ThenPush? then {} else {j.id}) + RestOf(after)
    case Indexing(j, after) => {j.id} + RestOf(after)
    case Pushing(j) => {j.id}
    case Promoting(due) => Elements(due)
    case PromotePush(id, due) => {id} + Elements(due)
    case Fetching(id) => {id}
    case Claiming(j) => {j.id}
    case Uploading(j) => {j.id}
    case PuttingImage(j, _) => {j.id}
    case PuttingText(j, _) => {j.id}
    case Acking(j) => {j.id}
    case Releasing(j, _, rest) => {j.id} + Elements(rest)
    case Burying(id, rest) => {id} + Elements(rest)
    case Delaying(id, _, rest) => {id} + Elements(rest)
    case Sweeping(rest) => Elements(rest)
    case Discarding(id, rest) => {id} + Elements(rest)
  }

  ghost predicate QueueKnown(r: Redis) {
    && (forall id | id in r.pending :: id in r.jobs)
    && r.processing.Keys <= r.jobs.Keys
    && r.delayed.Keys <= r.jobs.Keys
    && (forall id | id in r.deadLetter :: id in r.jobs)
  }

  /** No actor relies on a missing record, and none has found one missing. */
  ghost predicate ActorKnown(jobs: map<JobId, Job>, x: Actor) {
    Mentions(x) <= jobs.Keys && !x.Discarding?
  }

  ghost predicate Known(s: State) {
    && QueueKnown(s.redis)
    && (forall a :: ActorKnown(s.redis.jobs, At(s, a)))
    && s.pushed <= s.redis.jobs.Keys
  }

  // ----- Identity: every copy of a job carries the work it was issued with -----

  function Carried(x: Actor): Option<Job> {
    match x
    case Saving(j, _) => Some(j)
    case Indexing(j, _) => Some(j)
    case Pushing(j) => Some(j)
    case Claiming(j) => Some(j)
    case Uploading(j) => Some(j)
    case PuttingImage(j, _) => Some(j)
    case PuttingText(j, _) => Some(j)
    case Acking(j) => Some(j)
    case Releasing(j, _, _) => Some(j)
    case _ => None
  }

  ghost predicate IsCopy(issued: map<JobId, Job>, j: Job) {
    j.id in issued && j.SameWork(issued[j.id])
  }

  ghost predicate ActorCopies(issued: map<JobId, Job>, x: Actor) {
    Carried(x).Some? ==> IsCopy(issued, Carried(x).value)
  }

  ghost predicate IssuedApart(issued: map<JobId, Job>) {
    && (forall id | id in issued :: issued[id].id == id)
    && (forall id, other | id in issued && other in issued && id != other :: issued[id].productId != issued[other].productId)
  }

  ghost predicate Copies(s: State) {
    && IssuedApart(s.issued)
    && (forall id | id in s.redis.jobs :: s.redis.jobs[id].id == id && IsCopy(s.issued, s.redis.jobs[id]))
    && (forall a :: ActorCopies(s.issued, At(s, a)))
    && (forall p | p in s.redis.index :: s.redis.index[p] in s.issued && s.issued[s.redis.index[p]].productId == p)
    && s.completed <= s.issued.Keys
  }

  // ----- The vector store -----

  /** Under pid the collections hold nothing or the fault-free records. */
  ghost predicate Clean(svc: Services, payload: Payload, pid: ProductId, store: Store) {
    && (pid in store.images ==> Target(svc, payload).Ok? && store.images[pid] == Target(svc, payload).value.image)
    && (pid in store.texts ==> Target(svc, payload).Ok? && store.texts[pid] == Target(svc, payload).value.text)
  }

  ghost predicate Done(svc: Services, store: Store, j: Job) {
    Converged(svc, j.payload, j.productId, store)
  }

  predicate AfterUpload(after: After) {
    after.ThenComplete? || after.ThenAck?
  }

  ghost predicate ActorStore(svc: Services, store: Store, completed: set<JobId>, x: Actor) {
    match x
    case Saving(j, after) => AfterUpload(after) ==> Done(svc, store, j)
    case Indexing(j, after) => (AfterUpload(after) ==> Done(svc, store, j)) && (after.ThenAck? ==> j.id in completed)
    case PuttingImage(j, plan) => Target(svc, j.payload) == Ok(plan)
    case PuttingText(j, plan) =>
      Target(svc, j.payload) == Ok(plan) && j.productId in store.images && store.images[j.productId] == plan.image
    case Acking(j) => j.id in completed
    case _ => true
  }

  ghost predicate Untouched(before: Store, s: State, p: ProductId) {
    && (p in s.store.images <==> p in before.images)
    && (p in s.store.texts <==> p in before.texts)
    && (p in s.store.images && p in before.images ==> s.store.images[p] == before.images[p])
    && (p in s.store.texts && p in before.texts ==> s.store.texts[p] == before.texts[p])
  }

  ghost predicate StoreOk(svc: Services, before: Store, s: State) {
    && (forall id | id in s.issued :: Clean(svc, s.issued[id].payload, s.issued[id].productId, s.store))
    && (forall id | id in s.completed && id in s.issued :: Done(svc, s.store, s.issued[id]))
    && (forall a :: ActorStore(svc, s.store, s.completed, At(s, a)))
    && (forall p | (forall id | id in s.issued :: s.issued[id].productId != p) :: Untouched(before, s, p))
  }

  ghost predicate NoLoss(s: State) {
    forall id | id in s.pushed :: Accounted(s, id) || id in s.dropped
  }

  ghost predicate Inv(c: Config, before: Store, s: State) {
    Known(s) && Copies(s) && StoreOk(c.svc, before, s) && NoLoss(s)
  }

  // ----- A step moves one actor -----

  lemma OthersStay(c: Config, s: State, e: Event)
    ensures e.Tick? ==> Next(c, s, e).actors == s.actors
    ensures !e.Tick? ==> forall b | b != e.a :: At(Next(c, s, e), b) == At(s, b)
  {
    if e.Advance? { CommandMovesOne(c, s, e.a); }
  }

  lemma CommandMovesOne(c: Config, s: State, a: ActorId)
    ensures forall b | b != a :: At(Command(c, s, a), b) == At(s, b)
  {
    assert forall x: Actor, b | b != a :: At(Put(s, a, x), b) == At(s, b);
  }

  predicate QueueMove(x: Actor) {
    x.Pushing? || x.Promoting? || x.PromotePush? || x.Fetching? || x.Claiming?
  }

  predicate SaveMove(x: Actor) {
    x.Saving? || x.Indexing?
  }

  predicate UploadMove(x: Actor) {
    x.Uploading? || x.PuttingImage? || x.PuttingText?
  }

  predicate RetryMove(x: Actor) {
    x.Acking? || x.Releasing? || x.Burying? || x.Delaying? || x.Sweeping? || x.Discarding?
  }

  // ----- Steps keep the records known -----

  ghost predicate KnownAfter(s: State, a: ActorId, s': State) {
    && s.redis.jobs.Keys <= s'.redis.jobs.Keys
    && QueueKnown(s'.redis)
    && ActorKnown(s'.redis.jobs, At(s', a))
    && s'.pushed <= s'.redis.jobs.Keys
  }

  lemma KnownQueueMove(c: Config, s: State, a: ActorId)
    requires Known(s) && QueueMove(At(s, a))
    requires forall id | id in s.redis.jobs :: s.redis.jobs[id].id == id
    ensures KnownAfter(s, a, Command(c, s, a))
  {
    assert ActorKnown(s.redis.jobs, At(s, a));
  }

  lemma KnownSaveMove(c: Config, s: State, a: ActorId)
    requires Known(s) && SaveMove(At(s, a))
    ensures KnownAfter(s, a, Command(c, s, a))
  {
    assert ActorKnown(s.redis.jobs, At(s, a));
  }

  /** The vector-store steps do not touch Redis; the actor goes on with the same job, known or not yet to be known. */
  lemma UploadKeepsRedis(c: Config, s: State, a: ActorId)
    requires UploadMove(At(s, a))
    ensures var s' := Command(c, s, a);
            s'.redis == s.redis && s'.pushed == s.pushed && s'.issued == s.issued && s'.completed == s.completed
    ensures var x := At(Command(c, s, a), a);
            Carried(x).Some? && Carried(x).value.SameWork(At(s, a).job)
            && (x.Releasing? ==> x.rest == []) && (x.Saving? ==> x.after == ThenComplete)
  {
  }

  lemma KnownUploadMove(c: Config, s: State, a: ActorId)
    requires Known(s) && UploadMove(At(s, a))
    ensures KnownAfter(s, a, Command(c, s, a))
  {
    UploadKeepsRedis(c, s, a);
    assert ActorKnown(s.redis.jobs, At(s, a));
    assert Elements([]) == {};
  }

  lemma RetryQueueKnown(c: Config, s: State, a: ActorId)
    requires QueueKnown(s.redis) && ActorKnown(s.redis.jobs, At(s, a)) && RetryMove(At(s, a))
    ensures var s' := Command(c, s, a); s'.redis.jobs == s.redis.jobs && s'.pushed == s.pushed && QueueKnown(s'.redis)
  {
    match At(s, a)
    case Burying(id, _) => assert id in s.redis.jobs;
    case Delaying(id, _, _) => assert id in s.redis.jobs;
    case _ => RetryOnlyDrops(c, s, a);
  }

  /** The other steps of a retry add to no container. */
  lemma RetryOnlyDrops(c: Config, s: State, a: ActorId)
    requires RetryMove(At(s, a)) && !At(s, a).Burying? && !At(s, a).Delaying?
    ensures var r, r' := s.redis, Command(c, s, a).redis;
            && r'.jobs == r.jobs && r'.pending == r.pending && r'.delayed == r.delayed && r'.deadLetter == r.deadLetter
            && r'.processing.Keys <= r.processing.Keys
            && Command(c, s, a).pushed == s.pushed
  {
  }

  lemma RetryActorKnown(c: Config, s: State, a: ActorId)
    requires ActorKnown(s.redis.jobs, At(s, a)) && RetryMove(At(s, a))
    requires forall id | id in s.redis.jobs :: s.redis.jobs[id].id == id
    ensures ActorKnown(s.redis.jobs, At(Command(c, s, a), a))
  {
  }

  lemma KnownRetryMove(c: Config, s: State, a: ActorId)
    requires Known(s) && RetryMove(At(s, a))
    requires forall id | id in s.redis.jobs :: s.redis.jobs[id].id == id
    ensures KnownAfter(s, a, Command(c, s, a))
  {
    RetryQueueKnown(c, s, a);
    RetryActorKnown(c, s, a);
  }

  lemma KnownOther(c: Config, s: State, e: Event)
    requires Known(s) && Enabled(c, s, e) && !e.Advance? && !e.Tick?
    ensures KnownAfter(s, e.a, Next(c, s, e))
  {
    assert ActorKnown(s.redis.jobs, At(s, e.a));
    assert Elements([]) == {};
  }

  lemma KnownStep(c: Config, s: State, e: Event)
    requires Known(s) && Enabled(c, s, e)
    requires forall id | id in s.redis.jobs :: s.redis.jobs[id].id == id
    ensures Known(Next(c, s, e))
  {
    OthersStay(c, s, e);
    if e.Advance? {
      var x := At(s, e.a);
      if QueueMove(x) { KnownQueueMove(c, s, e.a); }
      else if SaveMove(x) { KnownSaveMove(c, s, e.a); }
      else if UploadMove(x) { KnownUploadMove(c, s, e.a); }
      else { KnownRetryMove(c, s, e.a); }
    } else if e.Tick? {
      assert ActorKnown(s.redis.jobs, At(s, 0));
    } else {
      KnownOther(c, s, e);
    }
    KnownFromActing(s, if e.Tick? then 0 else e.a, Next(c, s, e));
  }

  lemma KnownFromActing(s: State, a: ActorId, s': State)
    requires Known(s)
    requires forall b | b != a :: At(s', b) == At(s, b)
    requires KnownAfter(s, a, s')
    ensures Known(s')
  {
    forall b ensures ActorKnown(s'.redis.jobs, At(s', b)) {
      assert ActorKnown(s.redis.jobs, At(s, b));
    }
  }

  // ----- Steps keep every copy the same work -----

  ghost predicate CopiesAfter(s: State, a: ActorId, s': State) {
    && (forall id | id in s.issued :: id in s'.issued && s'.issued[id] == s.issued[id])
    && IssuedApart(s'.issued)
    && (forall id | id in s'.redis.jobs :: s'.redis.jobs[id].id == id && IsCopy(s'.issued, s'.redis.jobs[id]))
    && ActorCopies(s'.issued, At(s', a))
    && (forall p | p in s'.redis.index :: s'.redis.index[p] in s'.issued && s'.issued[s'.redis.index[p]].productId == p)
    && s'.completed <= s'.issued.Keys
  }

  lemma CopiesQueueMove(c: Config, s: State, a: ActorId)
    requires Copies(s) && QueueMove(At(s, a))
    ensures CopiesAfter(s, a, Command(c, s, a))
  {
    assert ActorCopies(s.issued, At(s, a));
  }

  lemma CopiesSaveMove(c: Config, s: State, a: ActorId)
    requires Copies(s) && SaveMove(At(s, a))
    ensures CopiesAfter(s, a, Command(c, s, a))
  {
    assert ActorCopies(s.issued, At(s, a));
  }

  /** A step that leaves the records, the index and the histories alone. */
  lemma CopiesSame(s: State, a: ActorId, s': State)
    requires Copies(s) && ActorCopies(s.issued, At(s', a))
    requires s'.redis.jobs == s.redis.jobs && s'.redis.index == s.redis.index
    requires s'.issued == s.issued && s'.completed == s.completed
    ensures CopiesAfter(s, a, s')
  {
  }

  lemma CopiesUploadMove(c: Config, s: State, a: ActorId)
    requires Copies(s) && UploadMove(At(s, a))
    ensures CopiesAfter(s, a, Command(c, s, a))
  {
    UploadKeepsRedis(c, s, a);
    assert ActorCopies(s.issued, At(s, a));
    CopiesSame(s, a, Command(c, s, a));
  }

  lemma RetryKeepsRecords(c: Config, s: State, a: ActorId)
    requires RetryMove(At(s, a))
    ensures var s' := Command(c, s, a);
            s'.redis.jobs == s.redis.jobs && s'.redis.index == s.redis.index && s'.issued == s.issued
            && s'.completed == s.completed && s'.store == s.store
  {
  }

  /** What an actor carries after a step of a retry: what it carried, or a record it has just read. */
  lemma RetryCarries(c: Config, s: State, a: ActorId)
    requires RetryMove(At(s, a)) && Carried(At(Command(c, s, a), a)).Some?
    ensures var j := Carried(At(Command(c, s, a), a)).value;
            || (Carried(At(s, a)).Some? && j.SameWork(Carried(At(s, a)).value))
            || exists id :: id in s.redis.jobs && s.redis.jobs[id] == j
  {
  }

  lemma CopiesRetryMove(c: Config, s: State, a: ActorId)
    requires Copies(s) && RetryMove(At(s, a))
    ensures CopiesAfter(s, a, Command(c, s, a))
  {
    RetryKeepsRecords(c, s, a);
    assert ActorCopies(s.issued, At(s, a));
    if Carried(At(Command(c, s, a), a)).Some? { RetryCarries(c, s, a); }
    CopiesSame(s, a, Command(c, s, a));
  }

  lemma CopiesCommand(c: Config, s: State, a: ActorId)
    requires Copies(s) && !At(s, a).Idle?
    ensures CopiesAfter(s, a, Command(c, s, a))
  {
    var x := At(s, a);
    if QueueMove(x) { CopiesQueueMove(c, s, a); }
    else if SaveMove(x) { CopiesSaveMove(c, s, a); }
    else if UploadMove(x) { CopiesUploadMove(c, s, a); }
    else { CopiesRetryMove(c, s, a); }
  }

  lemma CopiesSubmit(c: Config, s: State, e: Event)
    requires Copies(s) && Enabled(c, s, e) && e.Submit?
    ensures CopiesAfter(s, e.a, Next(c, s, e))
  {
  }

  lemma CopiesStep(c: Config, s: State, e: Event)
    requires Copies(s) && Enabled(c, s, e)
    ensures Copies(Next(c, s, e))
  {
    var s' := Next(c, s, e);
    var a := if e.Tick? then 0 else e.a;
    OthersStay(c, s, e);
    assert ActorCopies(s.issued, At(s, a));
    if e.Advance? { CopiesCommand(c, s, a); }
    if e.Submit? { CopiesSubmit(c, s, e); }
    assert CopiesAfter(s, a, s');
    forall b ensures ActorCopies(s'.issued, At(s', b)) {
      assert ActorCopies(s.issued, At(s, b));
    }
  }

  // ----- Steps keep the vector store clean -----

  /** What the acting actor does to the store and to the set of completed jobs. */
  ghost predicate StoreAfter(svc: Services, s: State, a: ActorId, s': State) {
    && s.completed <= s'.completed
    && ActorStore(svc, s'.store, s'.completed, At(s', a))
    && (forall id | id in s'.completed && id !in s.completed && id in s'.issued :: Done(svc, s'.store, s'.issued[id]))
    && (s'.store == s.store || (exists j, plan :: IsCopy(s.issued, j) && Target(svc, j.payload) == Ok(plan) &&
                                  (s'.store == PutImage(s.store, j.productId, plan) || s'.store == PutText(s.store, j.productId, plan))))
  }

  lemma StoreSaving(c: Config, before: Store, s: State, a: ActorId)
    requires Copies(s) && StoreOk(c.svc, before, s) && At(s, a).Saving?
    ensures StoreAfter(c.svc, s, a, Command(c, s, a))
  {
    assert ActorStore(c.svc, s.store, s.completed, At(s, a));
    assert ActorCopies(s.issued, At(s, a));
  }

  lemma ContinueStore(svc: Services, store: Store, completed: set<JobId>, j: Job, after: After)
    requires AfterUpload(after) ==> Done(svc, store, j)
    requires after.ThenAck? ==> j.id in completed
    ensures ActorStore(svc, store, completed, Continue(j, after))
  {
  }

  lemma StoreIndexing(c: Config, before: Store, s: State, a: ActorId)
    requires Copies(s) && StoreOk(c.svc, before, s) && At(s, a).Indexing?
    ensures StoreAfter(c.svc, s, a, Command(c, s, a))
  {
    assert ActorStore(c.svc, s.store, s.completed, At(s, a));
    ContinueStore(c.svc, s.store, s.completed, At(s, a).job, At(s, a).after);
    assert At(Command(c, s, a), a) == Continue(At(s, a).job, At(s, a).after);
  }

  lemma StoreUploadMove(c: Config, before: Store, s: State, a: ActorId)
    requires Copies(s) && StoreOk(c.svc, before, s) && UploadMove(At(s, a))
    ensures StoreAfter(c.svc, s, a, Command(c, s, a))
  {
    var x := At(s, a);
    assert ActorStore(c.svc, s.store, s.completed, x);
    assert ActorCopies(s.issued, x);
    PrepareIsTarget(c.svc, c.mode, x.job.payload, s.store);
  }

  lemma StoreQueueMove(c: Config, s: State, a: ActorId)
    requires QueueMove(At(s, a))
    ensures StoreAfter(c.svc, s, a, Command(c, s, a))
  {
  }

  /** After a step of a retry no actor is past an upload. */
  lemma RetryLeavesUpload(c: Config, s: State, a: ActorId)
    requires RetryMove(At(s, a))
    ensures var x := At(Command(c, s, a), a);
            x.Idle? || x.Sweeping? || x.Releasing? || x.Discarding? || (x.Saving? && !AfterUpload(x.after))
  {
  }

  lemma StoreRetryMove(c: Config, s: State, a: ActorId)
    requires RetryMove(At(s, a))
    ensures StoreAfter(c.svc, s, a, Command(c, s, a))
  {
    RetryKeepsRecords(c, s, a);
    RetryLeavesUpload(c, s, a);
  }

  lemma StoreOutside(c: Config, s: State, e: Event)
    requires Enabled(c, s, e) && !e.Tick? && !e.Advance?
    ensures StoreAfter(c.svc, s, e.a, Next(c, s, e)) && Next(c, s, e).store == s.store
  {
  }

  lemma StoreActing(c: Config, before: Store, s: State, e: Event)
    requires Copies(s) && StoreOk(c.svc, before, s) && Enabled(c, s, e) && !e.Tick?
    ensures StoreAfter(c.svc, s, e.a, Next(c, s, e))
  {
    if e.Advance? {
      var x := At(s, e.a);
      if QueueMove(x) { StoreQueueMove(c, s, e.a); }
      else if x.Saving? { StoreSaving(c, before, s, e.a); }
      else if x.Indexing? { StoreIndexing(c, before, s, e.a); }
      else if UploadMove(x) { StoreUploadMove(c, before, s, e.a); }
      else { StoreRetryMove(c, s, e.a); }
    } else {
      StoreOutside(c, s, e);
    }
  }

  /** A write of fault-free records under one job's own product leaves every claim about the store in place. */
  lemma WriteKeepsClaims(svc: Services, s: State, j: Job, plan: Plan, store': Store, k: Job)
    requires IsCopy(s.issued, j) && IsCopy(s.issued, k) && IssuedApart(s.issued)
    requires Target(svc, j.payload) == Ok(plan)
    requires store' == PutImage(s.store, j.productId, plan) || store' == PutText(s.store, j.productId, plan)
    ensures Clean(svc, k.payload, k.productId, s.store) ==> Clean(svc, k.payload, k.productId, store')
    ensures Done(svc, s.store, k) ==> Done(svc, store', k)
    ensures Target(svc, k.payload).Ok? && k.productId in s.store.images && s.store.images[k.productId] == Target(svc, k.payload).value.image
            ==> k.productId in store'.images && store'.images[k.productId] == Target(svc, k.payload).value.image
  {
  }

  lemma StoreActors(svc: Services, before: Store, s: State, a: ActorId, s': State, b: ActorId)
    requires Copies(s) && StoreOk(svc, before, s) && StoreAfter(svc, s, a, s')
    requires b != a ==> At(s', b) == At(s, b)
    ensures ActorStore(svc, s'.store, s'.completed, At(s', b))
  {
    if b != a && s'.store != s.store {
      var x := At(s, b);
      assert ActorStore(svc, s.store, s.completed, x);
      assert ActorCopies(s.issued, x);
      var j, plan :| IsCopy(s.issued, j) && Target(svc, j.payload) == Ok(plan) &&
                     (s'.store == PutImage(s.store, j.productId, plan) || s'.store == PutText(s.store, j.productId, plan));
      if Carried(x).Some? { WriteKeepsClaims(svc, s, j, plan, s'.store, Carried(x).value); }
    } else if b != a {
      assert ActorStore(svc, s.store, s.completed, At(s, b));
    }
  }

  lemma IssuedStep(c: Config, s: State, e: Event)
    ensures Next(c, s, e).issued == if e.Submit? then s.issued[e.job.id := e.job] else s.issued
    ensures e.Submit? || e.Tick? ==> Next(c, s, e).store == s.store && Next(c, s, e).completed == s.completed
  {
  }

  lemma StoreStep(c: Config, before: Store, s: State, e: Event)
    requires Copies(s) && StoreOk(c.svc, before, s) && Enabled(c, s, e)
    ensures StoreOk(c.svc, before, Next(c, s, e))
  {
    var s' := Next(c, s, e);
    var a := if e.Tick? then 0 else e.a;
    OthersStay(c, s, e);
    IssuedStep(c, s, e);
    if e.Tick? { assert ActorStore(c.svc, s.store, s.completed, At(s, 0)); } else { StoreActing(c, before, s, e); }
    StoreFromActing(c.svc, before, s, a, s', if e.Submit? then Some(e.job) else None);
  }

  lemma StoreFromActing(svc: Services, before: Store, s: State, a: ActorId, s': State, submitted: Option<Job>)
    requires Copies(s) && StoreOk(svc, before, s) && StoreAfter(svc, s, a, s')
    requires forall b | b != a :: At(s', b) == At(s, b)
    requires s'.issued == if submitted.Some? then s.issued[submitted.value.id := submitted.value] else s.issued
    requires submitted.Some? ==> s'.store == s.store && submitted.value.id !in s.issued && s'.completed == s.completed
                                 && submitted.value.productId !in s.store.images && submitted.value.productId !in s.store.texts
    ensures StoreOk(svc, before, s')
  {
    forall b ensures ActorStore(svc, s'.store, s'.completed, At(s', b)) {
      StoreActors(svc, before, s, a, s', b);
    }
    StoreGlobal(svc, before, s, a, s', submitted);
  }

  lemma StoreGlobal(svc: Services, before: Store, s: State, a: ActorId, s': State, submitted: Option<Job>)
    requires Copies(s) && StoreOk(svc, before, s) && StoreAfter(svc, s, a, s')
    requires s'.issued == if submitted.Some? then s.issued[submitted.value.id := submitted.value] else s.issued
    requires submitted.Some? ==> s'.store == s.store && submitted.value.id !in s.issued && s'.completed == s.completed
                                 && submitted.value.productId !in s.store.images && submitted.value.productId !in s.store.texts
    ensures forall id | id in s'.issued :: Clean(svc, s'.issued[id].payload, s'.issued[id].productId, s'.store)
    ensures forall id | id in s'.completed && id in s'.issued :: Done(svc, s'.store, s'.issued[id])
    ensures forall p | (forall id | id in s'.issued :: s'.issued[id].productId != p) :: Untouched(before, s', p)
  {
    forall id | id in s.issued
      ensures Clean(svc, s.issued[id].payload, s.issued[id].productId, s'.store)
      ensures id in s.completed ==> Done(svc, s'.store, s.issued[id])
    {
      if s'.store != s.store {
        var j, plan :| IsCopy(s.issued, j) && Target(svc, j.payload) == Ok(plan) &&
                       (s'.store == PutImage(s.store, j.productId, plan) || s'.store == PutText(s.store, j.productId, plan));
        WriteKeepsClaims(svc, s, j, plan, s'.store, s.issued[id]);
      }
    }
    forall p | (forall id | id in s'.issued :: s'.issued[id].productId != p) ensures Untouched(before, s', p) {
      forall id | id in s.issued ensures s.issued[id].productId != p { assert id in s'.issued; }
      assert Untouched(before, s, p);
    }
  }

  // ----- Steps keep every pushed job accounted for -----

  lemma AccountedQueueMove(c: Config, s: State, a: ActorId, id: JobId)
    requires Known(s) && QueueMove(At(s, a))
    requires forall k | k in s.redis.jobs :: s.redis.jobs[k].id == k
    requires Stored(s, id) || id in HeldBy(At(s, a))
    ensures var s' := Command(c, s, a); Stored(s', id) || id in HeldBy(At(s', a))
  {
    assert ActorKnown(s.redis.jobs, At(s, a));
    if At(s, a).Promoting? && At(s, a).due == [] && s.redis.pending != [] {
      assert s.redis.pending == [s.redis.pending[0]] + s.redis.pending[1..];
    }
  }

  lemma AccountedRetryMove(c: Config, s: State, a: ActorId, id: JobId)
    requires Known(s) && RetryMove(At(s, a))
    requires At(s, a).Acking? ==> At(s, a).job.id in s.completed
    requires Stored(s, id) || id in HeldBy(At(s, a))
    ensures var s' := Command(c, s, a); Stored(s', id) || id in HeldBy(At(s', a))
  {
    assert ActorKnown(s.redis.jobs, At(s, a));
  }

  lemma AccountedElsewhere(c: Config, s: State, e: Event, id: JobId)
    requires Enabled(c, s, e) && !e.Tick?
    requires e.Advance? ==> SaveMove(At(s, e.a)) || UploadMove(At(s, e.a))
    requires Stored(s, id) || id in HeldBy(At(s, e.a))
    ensures var s' := Next(c, s, e); Stored(s', id) || id in HeldBy(At(s', e.a)) || (e.Crash? && id in HeldBy(At(s, e.a)) && !Stored(s, id))
  {
  }

  /** The only step that makes an accounted job unaccounted for is a stop of the one actor that holds it. */
  lemma LostExactlyByHandoffStop(c: Config, before: Store, s: State, e: Event, id: JobId)
    requires Inv(c, before, s) && Enabled(c, s, e) && Accounted(s, id)
    ensures !Accounted(Next(c, s, e), id) <==>
            (e.Crash? && id in HeldBy(At(s, e.a)) && !Stored(s, id) && !HeldByOther(s, e.a, id))
  {
    var s' := Next(c, s, e);
    OthersStay(c, s, e);
    if e.Tick? {
      if !Stored(s, id) {
        var b :| id in HeldBy(At(s, b));
        assert At(s', b) == At(s, b);
      }
    } else {
      assert ActorStore(c.svc, s.store, s.completed, At(s, e.a));
      if HeldByOther(s, e.a, id) {
        var b :| b != e.a && id in HeldBy(At(s, b));
        assert id in HeldBy(At(s', b));
      } else {
        assert Stored(s, id) || id in HeldBy(At(s, e.a));
        if e.Advance? && QueueMove(At(s, e.a)) { AccountedQueueMove(c, s, e.a, id); }
        else if e.Advance? && RetryMove(At(s, e.a)) { AccountedRetryMove(c, s, e.a, id); }
        else { AccountedElsewhere(c, s, e, id); }
      }
    }
  }

  lemma PushedStep(c: Config, s: State, e: Event)
    requires Enabled(c, s, e)
    ensures var s' := Next(c, s, e);
            && s.dropped <= s'.dropped
            && (e.Crash? ==> s'.dropped == s.dropped + HeldBy(At(s, e.a)))
            && (forall id | id in s'.pushed && id !in s.pushed :: Stored(s', id))
  {
  }

  lemma NoLossStep(c: Config, before: Store, s: State, e: Event)
    requires Inv(c, before, s) && Enabled(c, s, e)
    ensures NoLoss(Next(c, s, e))
  {
    var s' := Next(c, s, e);
    PushedStep(c, s, e);
    forall id | id in s'.pushed ensures Accounted(s', id) || id in s'.dropped {
      if id in s.pushed && Accounted(s, id) {
        LostExactlyByHandoffStop(c, before, s, e, id);
      }
    }
  }

  lemma InvStep(c: Config, before: Store, s: State, e: Event)
    requires Inv(c, before, s) && Enabled(c, s, e)
    ensures Inv(c, before, Next(c, s, e))
  {
    KnownStep(c, s, e);
    CopiesStep(c, s, e);
    StoreStep(c, before, s, e);
    NoLossStep(c, before, s, e);
  }

  lemma {:induction false} InvRun(c: Config, before: Store, s: State, es: seq<Event>)
    requires Inv(c, before, s) && Valid(c, s, es)
    ensures Inv(c, before, Run(c, s, es))
    decreases es
  {
    if es != [] {
      InvStep(c, before, s, es[0]);
      InvRun(c, before, Next(c, s, es[0]), es[1..]);
    }
  }

  lemma InvInitial(c: Config, store: Store)
    ensures Inv(c, store, Initial(store))
  {
  }
}
