/**
 In how many places a job is, one command at a time: an entry in a container is a place, and
 so is an actor that has the job between two containers. Two removals do not look at the
 reply that says whether they removed anything, ZREM in `_promote_due_delayed_jobs` and HDEL
 at the head of `retry`; this module has what follows from that, exactly.
 */
module Places {
  import opened Wrappers
  import opened Jobs
  import opened QueueState
  import opened Uploads
  import opened CommandSteps

  predicate Submitting(x: Actor) {
    ((x.Saving? || x.Indexing?) && x.after.ThenPush?) || x.Pushing?
  }

  /** The ids an actor is about to put into a container. */
  function Owned(x: Actor): set<JobId> {
    if Submitting(x) then {x.job.id} else HeldBy(x)
  }

  function One(present: bool): nat {
    if present then 1 else 0
  }

  /** How many entries the containers have for an id. */
  function Entries(r: Redis, id: JobId): nat {
    multiset(r.pending)[id] + multiset(r.deadLetter)[id] + One(id in r.processing) + One(id in r.delayed)
  }

  function Owners(s: State, id: JobId): set<ActorId> {
    set a | a in s.actors && id in Owned(s.actors[a])
  }

  function Places(s: State, id: JobId): nat {
    Entries(s.redis, id) + |Owners(s, id)|
  }

  /** No container has the id twice, no two have it, no two actors own it, and no actor owns it while a container has it. */
  ghost predicate OnePlace(s: State, id: JobId) {
    var r := s.redis;
    && multiset(r.pending)[id] <= 1 && multiset(r.deadLetter)[id] <= 1
    && (id in r.pending ==> id !in r.processing && id !in r.delayed && id !in r.deadLetter)
    && (id in r.processing ==> id !in r.delayed && id !in r.deadLetter)
    && (id in r.delayed ==> id !in r.deadLetter)
    && (forall a :: id in Owned(At(s, a)) ==> !InContainer(r, id))
    && (forall a, b :: id in Owned(At(s, a)) && id in Owned(At(s, b)) ==> a == b)
  }

  predicate InContainer(r: Redis, id: JobId) {
    id in r.pending || id in r.processing || id in r.delayed || id in r.deadLetter
  }

  lemma EntriesZero(r: Redis, id: JobId)
    ensures Entries(r, id) == 0 <==> !InContainer(r, id)
  {
    assert id in r.pending <==> id in multiset(r.pending);
    assert id in r.deadLetter <==> id in multiset(r.deadLetter);
  }

  lemma OwnersAt(s: State, id: JobId)
    ensures forall a :: a in Owners(s, id) <==> id in Owned(At(s, a))
  {
  }

  lemma AtMostOne<T>(s: set<T>)
    ensures |s| <= 1 <==> forall a, b | a in s && b in s :: a == b
  {
    if |s| > 1 {
      var a :| a in s;
      assert |s - {a}| == |s| - 1;
      assert s - {a} != {};
      var b :| b in s - {a};
    } else if |s| == 1 {
      var a :| a in s;
      assert |s - {a}| == 0;
    }
  }

  /** The number of places says what it should. */
  lemma OnePlaceIff(s: State, id: JobId)
    ensures Places(s, id) <= 1 <==> OnePlace(s, id)
  {
    EntriesZero(s.redis, id);
    OwnersAt(s, id);
    AtMostOne(Owners(s, id));
    assert id in s.redis.pending <==> id in multiset(s.redis.pending);
    assert id in s.redis.deadLetter <==> id in multiset(s.redis.deadLetter);
    if Owners(s, id) != {} {
      var a :| a in Owners(s, id);
      assert |Owners(s, id)| >= 1 by { assert |Owners(s, id) - {a}| >= 0; }
    }
  }

  // ----- What one step does to the number of places -----

  /** The id whose removal from a container the next command of x ignores the reply of. */
  function Takes(x: Actor): Option<JobId> {
    match x
    case Promoting(due) => if due == [] then None else Some(due[0])
    case Releasing(j, _, _) => Some(j.id)
    case _ => None
  }

  /** The removal finds what it removes. */
  predicate Hits(r: Redis, x: Actor) {
    match x
    case Promoting(due) => due == [] || due[0] in r.delayed
    case Releasing(j, _, _) => j.id in r.processing
    case _ => true
  }

  /** A step that takes id out of a container that does not have it. */
  predicate Misses(s: State, e: Event, id: JobId) {
    e.Advance? && Takes(At(s, e.a)) == Some(id) && !Hits(s.redis, At(s, e.a))
  }

  function ActorPlaces(r: Redis, x: Actor, id: JobId): nat {
    Entries(r, id) + One(id in Owned(x))
  }

  lemma PlacesSplit(s: State, a: ActorId, id: JobId)
    ensures Places(s, id) == ActorPlaces(s.redis, At(s, a), id) + |Owners(s, id) - {a}|
  {
    OwnersAt(s, id);
    if a in Owners(s, id) { assert |Owners(s, id)| == |Owners(s, id) - {a}| + 1; } else { assert Owners(s, id) - {a} == Owners(s, id); }
  }

  lemma OtherOwners(c: Config, s: State, e: Event, id: JobId)
    requires !e.Tick?
    ensures Owners(Next(c, s, e), id) - {e.a} == Owners(s, id) - {e.a}
  {
    OthersStay(c, s, e);
    OwnersAt(s, id);
    OwnersAt(Next(c, s, e), id);
  }

  lemma PopEntries(r: Redis, id: JobId)
    requires r.pending != []
    ensures multiset(r.pending)[id] == multiset(r.pending[1..])[id] + One(r.pending[0] == id)
  {
    assert r.pending == [r.pending[0]] + r.pending[1..];
  }

  lemma PromotingPlaces(c: Config, s: State, a: ActorId, id: JobId)
    requires At(s, a).Promoting? && At(s, a).due != []
    ensures var s' := Command(c, s, a); var before, after := ActorPlaces(s.redis, At(s, a), id), ActorPlaces(s'.redis, At(s', a), id);
            if Misses(s, Advance(a), id) then after == before + 1 else after <= before
  {
    var due := At(s, a).due;
    var s' := Command(c, s, a);
    assert s'.redis == DropDelayed(s.redis, due[0]) && Owned(At(s', a)) == {due[0]} && Owned(At(s, a)) == {};
  }

  lemma PoppingPlaces(c: Config, s: State, a: ActorId, id: JobId)
    requires At(s, a) == Promoting([])
    ensures var s' := Command(c, s, a); ActorPlaces(s'.redis, At(s', a), id) <= ActorPlaces(s.redis, At(s, a), id)
  {
    if s.redis.pending != [] { PopEntries(s.redis, id); }
  }

  lemma PushingPlaces(c: Config, s: State, a: ActorId, id: JobId)
    requires At(s, a).Pushing? || At(s, a).PromotePush?
    ensures var s' := Command(c, s, a); ActorPlaces(s'.redis, At(s', a), id) <= ActorPlaces(s.redis, At(s, a), id)
  {
  }

  lemma ClaimingPlaces(c: Config, s: State, a: ActorId, id: JobId)
    requires At(s, a).Fetching? || At(s, a).Claiming?
    requires forall k | k in s.redis.jobs :: s.redis.jobs[k].id == k
    ensures var s' := Command(c, s, a); ActorPlaces(s'.redis, At(s', a), id) <= ActorPlaces(s.redis, At(s, a), id)
  {
  }

  lemma SaveMovePlaces(c: Config, s: State, a: ActorId, id: JobId)
    requires SaveMove(At(s, a))
    ensures var s' := Command(c, s, a); ActorPlaces(s'.redis, At(s', a), id) == ActorPlaces(s.redis, At(s, a), id)
  {
  }

  lemma UploadMovePlaces(c: Config, s: State, a: ActorId, id: JobId)
    requires UploadMove(At(s, a))
    ensures var s' := Command(c, s, a); ActorPlaces(s'.redis, At(s', a), id) == ActorPlaces(s.redis, At(s, a), id)
  {
    UploadKeepsRedis(c, s, a);
  }

  lemma ReleasingPlaces(c: Config, s: State, a: ActorId, id: JobId)
    requires At(s, a).Releasing?
    ensures var s' := Command(c, s, a); var before, after := ActorPlaces(s.redis, At(s, a), id), ActorPlaces(s'.redis, At(s', a), id);
            if Misses(s, Advance(a), id) then after == before + 1 else after <= before
  {
  }

  lemma PlacingPlaces(c: Config, s: State, a: ActorId, id: JobId)
    requires At(s, a).Burying? || At(s, a).Delaying?
    ensures var s' := Command(c, s, a); ActorPlaces(s'.redis, At(s', a), id) <= ActorPlaces(s.redis, At(s, a), id)
  {
  }

  lemma DroppingPlaces(c: Config, s: State, a: ActorId, id: JobId)
    requires At(s, a).Acking? || At(s, a).Sweeping? || At(s, a).Discarding?
    ensures var s' := Command(c, s, a); ActorPlaces(s'.redis, At(s', a), id) <= ActorPlaces(s.redis, At(s, a), id)
  {
    RetryOnlyDrops(c, s, a);
  }

  lemma CommandPlaces(c: Config, s: State, a: ActorId, id: JobId)
    requires forall k | k in s.redis.jobs :: s.redis.jobs[k].id == k
    ensures var s' := Command(c, s, a); var before, after := ActorPlaces(s.redis, At(s, a), id), ActorPlaces(s'.redis, At(s', a), id);
            if Misses(s, Advance(a), id) then after == before + 1 else after <= before
  {
    var x := At(s, a);
    if x == Promoting([]) { PoppingPlaces(c, s, a, id); }
    else if x.Promoting? { PromotingPlaces(c, s, a, id); }
    else if x.Pushing? || x.PromotePush? { PushingPlaces(c, s, a, id); }
    else if QueueMove(x) { ClaimingPlaces(c, s, a, id); }
    else if SaveMove(x) { SaveMovePlaces(c, s, a, id); }
    else if UploadMove(x) { UploadMovePlaces(c, s, a, id); }
    else if x.Releasing? { ReleasingPlaces(c, s, a, id); }
    else if x.Burying? || x.Delaying? { PlacingPlaces(c, s, a, id); }
    else if RetryMove(x) { DroppingPlaces(c, s, a, id); }
  }

  /** An id nobody has issued is nowhere. */
  lemma UnissuedNowhere(s: State, id: JobId)
    requires Known(s) && Copies(s) && id !in s.issued
    ensures Places(s, id) == 0
  {
    EntriesZero(s.redis, id);
    forall a ensures id !in Owned(At(s, a)) {
      assert ActorKnown(s.redis.jobs, At(s, a));
      assert ActorCopies(s.issued, At(s, a));
    }
    OwnersAt(s, id);
    assert Owners(s, id) == {};
  }

  lemma OutsidePlaces(c: Config, s: State, e: Event, id: JobId)
    requires Enabled(c, s, e) && !e.Tick? && !e.Advance?
    ensures var s' := Next(c, s, e); var before, after := ActorPlaces(s.redis, At(s, e.a), id), ActorPlaces(s'.redis, At(s', e.a), id);
            if e.Submit? && e.job.id == id then after == before + 1 else after <= before
  {
  }

  /** A step adds a place for an id exactly when it submits it, or takes it where it is not. */
  lemma PlacesStep(c: Config, s: State, e: Event, id: JobId)
    requires Known(s) && Copies(s) && Enabled(c, s, e)
    ensures var before, after := Places(s, id), Places(Next(c, s, e), id);
            if (e.Submit? && e.job.id == id) || Misses(s, e, id) then after == before + 1 else after <= before
    ensures e.Submit? && e.job.id == id ==> Places(s, id) == 0
  {
    if e.Submit? && e.job.id == id { UnissuedNowhere(s, id); }
    if e.Tick? {
      assert Owners(Next(c, s, e), id) == Owners(s, id);
    } else {
      PlacesSplit(s, e.a, id);
      PlacesSplit(Next(c, s, e), e.a, id);
      OtherOwners(c, s, e, id);
      if e.Advance? { CommandPlaces(c, s, e.a, id); } else { OutsidePlaces(c, s, e, id); }
    }
  }

  /** A container has the id, or an actor other than a is about to put it into one. */
  ghost predicate Elsewhere(s: State, a: ActorId, id: JobId) {
    InContainer(s.redis, id) || exists b :: b != a && id in Owned(At(s, b))
  }

  lemma ElsewhereIff(s: State, a: ActorId, id: JobId)
    requires id !in Owned(At(s, a))
    ensures Elsewhere(s, a, id) <==> Places(s, id) > 0
  {
    EntriesZero(s.redis, id);
    OwnersAt(s, id);
    if exists b :: b != a && id in Owned(At(s, b)) {
      var b :| b != a && id in Owned(At(s, b));
      assert b in Owners(s, id);
      assert |Owners(s, id) - {b}| >= 0;
    }
    if |Owners(s, id)| > 0 {
      var b :| b in Owners(s, id);
      assert b != a && id in Owned(At(s, b));
    }
  }

  /** An id that is in one place at most stays so, except by a step that takes it where it is not while it is elsewhere. */
  lemma OnePlaceLostExactly(c: Config, before: Store, s: State, e: Event, id: JobId)
    requires Inv(c, before, s) && Enabled(c, s, e) && OnePlace(s, id)
    ensures !OnePlace(Next(c, s, e), id) <==> Misses(s, e, id) && Elsewhere(s, e.a, id)
  {
    OnePlaceIff(s, id);
    OnePlaceIff(Next(c, s, e), id);
    PlacesStep(c, s, e, id);
    if Misses(s, e, id) { ElsewhereIff(s, e.a, id); }
  }

  // ----- Runs -----

  /** How many steps of a run take id where it is not. */
  ghost function MissCount(c: Config, s: State, es: seq<Event>, id: JobId): nat
    decreases es
  {
    if es == [] then 0 else One(Misses(s, es[0], id)) + MissCount(c, Next(c, s, es[0]), es[1..], id)
  }

  lemma {:induction false} PlacesRun(c: Config, before: Store, s: State, es: seq<Event>, id: JobId)
    requires Inv(c, before, s) && Valid(c, s, es) && (id !in s.issued ==> Places(s, id) == 0)
    ensures Places(Run(c, s, es), id) <= MissCount(c, s, es, id) + if id in s.issued then Places(s, id) else 1
    decreases es
  {
    if es != [] {
      var s1 := Next(c, s, es[0]);
      InvStep(c, before, s, es[0]);
      PlacesStep(c, s, es[0], id);
      IssuedStep(c, s, es[0]);
      if id !in s1.issued { UnissuedNowhere(s1, id); }
      PlacesRun(c, before, s1, es[1..], id);
    }
  }

  /** In every run an id is in at most one place more than removals of it have missed. */
  lemma PlacesBounded(c: Config, store: Store, es: seq<Event>, id: JobId)
    requires Valid(c, Initial(store), es)
    ensures Places(Run(c, Initial(store), es), id) <= 1 + MissCount(c, Initial(store), es, id)
  {
    InvInitial(c, store);
    UnissuedNowhere(Initial(store), id);
    PlacesRun(c, store, Initial(store), es, id);
  }

  ghost predicate AlwaysOnePlace(c: Config, s: State, es: seq<Event>)
    decreases es
  {
    (forall id: JobId :: OnePlace(s, id)) && (es == [] || AlwaysOnePlace(c, Next(c, s, es[0]), es[1..]))
  }

  /** A step that takes an id where it is not while it is elsewhere. */
  ghost predicate Duplicates(s: State, e: Event) {
    exists id: JobId :: Misses(s, e, id) && Elsewhere(s, e.a, id)
  }

  ghost predicate NeverDuplicates(c: Config, s: State, es: seq<Event>)
    decreases es
  {
    es == [] || (!Duplicates(s, es[0]) && NeverDuplicates(c, Next(c, s, es[0]), es[1..]))
  }

  lemma {:induction false} OnePlaceRun(c: Config, before: Store, s: State, es: seq<Event>)
    requires Inv(c, before, s) && Valid(c, s, es) && (forall id: JobId :: OnePlace(s, id))
    ensures AlwaysOnePlace(c, s, es) <==> NeverDuplicates(c, s, es)
    decreases es
  {
    if es != [] {
      var s1 := Next(c, s, es[0]);
      InvStep(c, before, s, es[0]);
      forall id: JobId ensures !OnePlace(s1, id) <==> Misses(s, es[0], id) && Elsewhere(s, es[0].a, id) {
        OnePlaceLostExactly(c, before, s, es[0], id);
      }
      if forall id: JobId :: OnePlace(s1, id) {
        OnePlaceRun(c, before, s1, es[1..]);
      }
    }
  }

  /** All along a run every job is in one place at most if and only if no removal misses an id that is elsewhere. */
  lemma OnePlaceExactly(c: Config, store: Store, es: seq<Event>)
    requires Valid(c, Initial(store), es)
    ensures AlwaysOnePlace(c, Initial(store), es) <==> NeverDuplicates(c, Initial(store), es)
  {
    InvInitial(c, store);
    forall id: JobId ensures OnePlace(Initial(store), id) {
      UnissuedNowhere(Initial(store), id);
      OnePlaceIff(Initial(store), id);
    }
    OnePlaceRun(c, store, Initial(store), es);
  }

  /** Every ZREM of a promotion and every HDEL of a retry removes something. */
  ghost predicate EveryRemovalHits(c: Config, s: State, es: seq<Event>)
    decreases es
  {
    es == [] || ((es[0].Advance? ==> Hits(s.redis, At(s, es[0].a))) && EveryRemovalHits(c, Next(c, s, es[0]), es[1..]))
  }

  lemma {:induction false} HitsNeverDuplicate(c: Config, s: State, es: seq<Event>)
    requires EveryRemovalHits(c, s, es)
    ensures NeverDuplicates(c, s, es)
    decreases es
  {
    if es != [] { HitsNeverDuplicate(c, Next(c, s, es[0]), es[1..]); }
  }

  /** A queue that looked at those replies would keep every job in one place. */
  lemma HitsKeepOnePlace(c: Config, store: Store, es: seq<Event>)
    requires Valid(c, Initial(store), es) && EveryRemovalHits(c, Initial(store), es)
    ensures AlwaysOnePlace(c, Initial(store), es)
  {
    HitsNeverDuplicate(c, Initial(store), es);
    OnePlaceExactly(c, store, es);
  }
}
