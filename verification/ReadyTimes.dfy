/**
 When a job is claimed, against the ready-at its last ZADD scheduled, one command at a time. A
 promotion reads the due ids first and removes them later; by then an id can have been scheduled
 anew, for a time that has not come. This module has what follows from that, exactly.
 */
module ReadyTimes {
  import opened Wrappers
  import opened Jobs
  import opened QueueState
  import opened Uploads
  import opened CommandSteps
  import opened Places
  import opened Claims

  /** The ready-at of the last ZADD of id, after a step from a state in which it was last. */
  function Scheduled(s: State, e: Event, id: JobId, last: Option<Time>): Option<Time> {
    if e.Advance? && At(s, e.a).Delaying? && At(s, e.a).id == id then Some(At(s, e.a).readyAt) else last
  }

  /** A worker is given the job before the time its last retry scheduled. */
  predicate ClaimsEarly(s: State, e: Event, id: JobId, last: Option<Time>) {
    ClaimsJob(s, e, id) && last.Some? && s.clock < last.value
  }

  ghost predicate NeverEarly(c: Config, s: State, es: seq<Event>, id: JobId, last: Option<Time>)
    decreases es
  {
    es == [] || (!ClaimsEarly(s, es[0], id, last) && NeverEarly(c, Next(c, s, es[0]), es[1..], id, Scheduled(s, es[0], id, last)))
  }

  /** A ZREM that removes an entry whose time has not come. */
  predicate PullsEarly(s: State, e: Event, id: JobId) {
    && e.Advance? && At(s, e.a).Promoting? && At(s, e.a).due != [] && At(s, e.a).due[0] == id
    && id in s.redis.delayed && s.clock < s.redis.delayed[id]
  }

  /** The delayed set shows the last ready-at, and once it shows none that time has come. */
  predicate Timely(s: State, id: JobId, last: Option<Time>) {
    if id in s.redis.delayed then last == Some(s.redis.delayed[id]) else last.Some? ==> last.value <= s.clock
  }

  /** The entry of id in the delayed set after the step of an actor. */
  ghost predicate EntryAfter(s: State, x: Actor, id: JobId, d': map<JobId, Time>) {
    var d := s.redis.delayed;
    if x.Delaying? && x.id == id then id in d' && d'[id] == x.readyAt
    else if x.Promoting? && x.due != [] && x.due[0] == id then id !in d'
    else (id in d' <==> id in d) && (id in d ==> d'[id] == d[id])
  }

  lemma EntryQueueMove(c: Config, s: State, a: ActorId, id: JobId)
    requires QueueMove(At(s, a))
    ensures EntryAfter(s, At(s, a), id, Command(c, s, a).redis.delayed)
  {
  }

  lemma EntryRetryMove(c: Config, s: State, a: ActorId, id: JobId)
    requires RetryMove(At(s, a))
    ensures EntryAfter(s, At(s, a), id, Command(c, s, a).redis.delayed)
  {
    if !At(s, a).Burying? && !At(s, a).Delaying? { RetryOnlyDrops(c, s, a); }
  }

  lemma EntryOtherMove(c: Config, s: State, a: ActorId, id: JobId)
    requires !QueueMove(At(s, a)) && !RetryMove(At(s, a))
    ensures EntryAfter(s, At(s, a), id, Command(c, s, a).redis.delayed)
  {
    if UploadMove(At(s, a)) { UploadKeepsRedis(c, s, a); }
  }

  lemma DelayedAfter(c: Config, s: State, e: Event, id: JobId)
    ensures EntryAfter(s, if e.Advance? then At(s, e.a) else Idle, id, Next(c, s, e).redis.delayed)
  {
    if e.Advance? {
      if QueueMove(At(s, e.a)) { EntryQueueMove(c, s, e.a, id); }
      else if RetryMove(At(s, e.a)) { EntryRetryMove(c, s, e.a, id); }
      else { EntryOtherMove(c, s, e.a, id); }
    }
  }

  lemma ClockAfter(c: Config, s: State, e: Event)
    requires Enabled(c, s, e)
    ensures Next(c, s, e).clock >= s.clock && (!e.Tick? ==> Next(c, s, e).clock == s.clock)
  {
  }

  /** A step spoils this exactly when it removes an entry before its time. */
  lemma TimelyLostExactly(c: Config, s: State, e: Event, id: JobId, last: Option<Time>)
    requires Enabled(c, s, e) && Timely(s, id, last)
    ensures !Timely(Next(c, s, e), id, Scheduled(s, e, id, last)) <==> PullsEarly(s, e, id)
  {
    DelayedAfter(c, s, e, id);
    ClockAfter(c, s, e);
  }

  // ----- Runs -----

  ghost predicate AlwaysTimely(c: Config, s: State, es: seq<Event>, id: JobId, last: Option<Time>)
    decreases es
  {
    Timely(s, id, last) && (es == [] || AlwaysTimely(c, Next(c, s, es[0]), es[1..], id, Scheduled(s, es[0], id, last)))
  }

  ghost predicate NeverPulls(c: Config, s: State, es: seq<Event>, id: JobId)
    decreases es
  {
    es == [] || (!PullsEarly(s, es[0], id) && NeverPulls(c, Next(c, s, es[0]), es[1..], id))
  }

  lemma {:induction false} TimelyRun(c: Config, s: State, es: seq<Event>, id: JobId, last: Option<Time>)
    requires Valid(c, s, es) && Timely(s, id, last)
    ensures AlwaysTimely(c, s, es, id, last) <==> NeverPulls(c, s, es, id)
    decreases es
  {
    if es != [] {
      TimelyLostExactly(c, s, es[0], id, last);
      if !PullsEarly(s, es[0], id) { TimelyRun(c, Next(c, s, es[0]), es[1..], id, Scheduled(s, es[0], id, last)); }
    }
  }

  /** All along a run a job outside the delayed set is past its last ready-at if and only if no ZREM removes it early. */
  lemma TimelyExactly(c: Config, store: Store, es: seq<Event>, id: JobId)
    requires Valid(c, Initial(store), es)
    ensures AlwaysTimely(c, Initial(store), es, id, None) <==> NeverPulls(c, Initial(store), es, id)
  {
    TimelyRun(c, Initial(store), es, id, None);
  }

  /** Every removal of id hits, and every ZREM of it removes an entry that is due at that moment. */
  ghost predicate Punctual(c: Config, s: State, es: seq<Event>, id: JobId)
    decreases es
  {
    es == [] || (!Misses(s, es[0], id) && !PullsEarly(s, es[0], id) && Punctual(c, Next(c, s, es[0]), es[1..], id))
  }

  /** A job that is in one place is claimed out of the delayed set, so after its last ready-at. */
  lemma ClaimTimely(s: State, e: Event, id: JobId, last: Option<Time>)
    requires OnePlace(s, id) && Timely(s, id, last)
    ensures !ClaimsEarly(s, e, id, last)
  {
    if ClaimsJob(s, e, id) { assert id in Owned(At(s, e.a)); }
  }

  lemma {:induction false} PunctualRun(c: Config, before: Store, s: State, es: seq<Event>, id: JobId, last: Option<Time>)
    requires Inv(c, before, s) && Valid(c, s, es) && Punctual(c, s, es, id)
    requires OnePlace(s, id) && Timely(s, id, last)
    ensures NeverEarly(c, s, es, id, last)
    decreases es
  {
    if es != [] {
      InvStep(c, before, s, es[0]);
      ClaimTimely(s, es[0], id, last);
      OnePlaceLostExactly(c, before, s, es[0], id);
      TimelyLostExactly(c, s, es[0], id, last);
      PunctualRun(c, before, Next(c, s, es[0]), es[1..], id, Scheduled(s, es[0], id, last));
    }
  }

  /** In a punctual run no claim of the job comes before the ready-at last scheduled for it. */
  lemma PunctualNeverEarly(c: Config, store: Store, es: seq<Event>, id: JobId)
    requires Valid(c, Initial(store), es) && Punctual(c, Initial(store), es, id)
    ensures NeverEarly(c, Initial(store), es, id, None)
  {
    InvInitial(c, store);
    UnissuedNowhere(Initial(store), id);
    OnePlaceIff(Initial(store), id);
    PunctualRun(c, store, Initial(store), es, id, None);
  }

  /** The last ready-at scheduled in a run. */
  ghost function LastReady(c: Config, s: State, es: seq<Event>, id: JobId, last: Option<Time>): Option<Time>
    decreases es
  {
    if es == [] then last else LastReady(c, Next(c, s, es[0]), es[1..], id, Scheduled(s, es[0], id, last))
  }

  /** The entry in the delayed set is the last that was scheduled. */
  predicate EntryIsLast(s: State, id: JobId, last: Option<Time>) {
    id in s.redis.delayed ==> last == Some(s.redis.delayed[id])
  }

  lemma {:induction false} EntryIsLastRun(c: Config, s: State, es: seq<Event>, id: JobId, last: Option<Time>)
    requires EntryIsLast(s, id, last)
    ensures EntryIsLast(Run(c, s, es), id, LastReady(c, s, es, id, last))
    decreases es
  {
    if es != [] {
      DelayedAfter(c, s, es[0], id);
      EntryIsLastRun(c, Next(c, s, es[0]), es[1..], id, Scheduled(s, es[0], id, last));
    }
  }

  /** A run is never early only if what follows any front part of it is not. */
  lemma {:induction false} EarlyInTail(c: Config, s: State, es: seq<Event>, fs: seq<Event>, id: JobId, last: Option<Time>)
    requires !NeverEarly(c, Run(c, s, es), fs, id, LastReady(c, s, es, id, last))
    ensures !NeverEarly(c, s, es + fs, id, last)
    decreases es
  {
    if es == [] {
      assert es + fs == fs;
    } else {
      assert (es + fs)[1..] == es[1..] + fs;
      EarlyInTail(c, Next(c, s, es[0]), es[1..], fs, id, Scheduled(s, es[0], id, last));
    }
  }
}
