/**
 Daily event counters and the trends read from them
 (backend/app/repositories/analytics_repository.py, `record_event`, `count_range`;
 backend/app/services/analytics/analytics_engine.py, `usage`, `trend`, `_last_n_days`, `_days_in_range`).
 Days are numbered; today is the number of the clock's day.
 */
module Analytics {
  import opened Wrappers
  import opened Counters

  type Day = int

  const DAY: Time := 86_400_000
  const RETENTION_DAYS := 90

  datatype EventKind = Upload | DuplicateCheck | Recommendation | Search

  datatype Bucket = Bucket(event: EventKind, day: Day)

  const TTL: Bucket -> Time := (b: Bucket) => RETENTION_DAYS * DAY

  function Today(clock: Time): Day {
    clock / DAY
  }

  // ----- The log of events -----

  /** The events of a kind that were recorded for the days from a to b. */
  function Recorded(log: seq<Increment<Bucket>>, event: EventKind, a: Day, b: Day): nat {
    if log == [] then 0
    else
      var k := log[|log| - 1].key;
      Recorded(log[..|log| - 1], event, a, b) + if k.event == event && a <= k.day <= b then 1 else 0
  }

  /** No event was recorded for a day that had not begun. */
  ghost predicate EntriesInTime(log: seq<Increment<Bucket>>) {
    forall i :: 0 <= i < |log| ==> log[i].key.day * DAY <= log[i].at
  }

  predicate Retained(clock: Time, d: Day) {
    Today(clock) - d < RETENTION_DAYS
  }

  /** `mget`, with 0 for a missing bucket. */
  function Counts(store: Store<Bucket>, event: EventKind, days: seq<Day>): (counts: seq<nat>)
    ensures |counts| == |days| && forall i :: 0 <= i < |days| ==> counts[i] == Get(store, Bucket(event, days[i]))
  {
    seq(|days|, i requires 0 <= i < |days| => Get(store, Bucket(event, days[i])))
  }

  // ----- The repository -----

  /** Where, if anywhere, Redis fails while an event is recorded. */
  datatype Fault = NoFault | BeforeIncr | BeforeExpire

  class AnalyticsRepository {
    var store: Store<Bucket>

    ghost predicate Valid()
      reads this
    {
      Kept(store, TTL)
    }

    constructor (clock: Time)
      ensures Valid() && store == Empty<Bucket>(clock)
    {
      store := Empty(clock);
      new;
      EmptyKept(clock, TTL);
    }

    /** Never fails: a fault is swallowed, and the event is counted unless the fault came first. */
    method RecordEvent(event: EventKind, day: Option<Day>, fault: Fault)
      requires Valid()
      modifies this
      ensures Valid() && store.clock == old(store.clock)
      ensures var b := Bucket(event, day.GetOr(Today(store.clock)));
              && (fault.BeforeIncr? ==> store == old(store))
              && (!fault.BeforeIncr? ==> store.log == old(store.log) + [Increment(b, store.clock, old(Get(store, b)) + 1)])
              && (!fault.BeforeIncr? ==> Get(store, b) == old(Get(store, b)) + 1)
              && forall other :: other != b ==> Get(store, other) == old(Get(store, other))
      ensures day == None && old(EntriesInTime(store.log)) ==> EntriesInTime(store.log)
    {
      var key := Bucket(event, day.GetOr(Today(store.clock)));
      if fault.BeforeIncr? { return; }
      IncrKept(store, TTL, key);
      store := Incr(store, key);
      if fault.BeforeExpire? { return; }
      ExpireKept(store, TTL, key);
      store := Expire(store, key, RETENTION_DAYS * DAY);
    }

    function CountRange(event: EventKind, days: seq<Day>): seq<nat>
      reads this
    {
      Counts(store, event, days)
    }
  }

  // ----- Dates -----

  /** The days from a on, n of them. */
  function DaysFrom(a: Day, n: nat): (s: seq<Day>)
    ensures |s| == n && forall i :: 0 <= i < n ==> s[i] == a + i
  {
    seq(n, i => a + i)
  }

  /** `_last_n_days`: offsets n - 1 down to 0 before the end. */
  function LastNDays(n: int, end: Day): (s: seq<Day>)
    ensures |s| == if n > 0 then n else 0
    ensures forall i :: 0 <= i < |s| ==> s[i] == end - (n - 1 - i)
  {
    seq(if n > 0 then n else 0, i => end - (n - 1 - i))
  }

  /** `_days_in_range`: offsets 0 up to the span after the start. */
  function DaysInRange(a: Day, b: Day): (s: seq<Day>)
    ensures |s| == if b >= a then b - a + 1 else 0
    ensures forall i :: 0 <= i < |s| ==> s[i] == a + i
  {
    seq(if b >= a then b - a + 1 else 0, i => a + i)
  }

  // ----- Reports -----

  function Total(ns: seq<nat>): nat {
    if ns == [] then 0 else Total(ns[..|ns| - 1]) + ns[|ns| - 1]
  }

  lemma {:induction false} TotalConcat(a: seq<nat>, b: seq<nat>)
    ensures Total(a + b) == Total(a) + Total(b)
  {
    if b == [] {
      assert a + b == a;
    } else {
      TotalConcat(a, b[..|b| - 1]);
      assert (a + b)[..|a + b| - 1] == a + b[..|b| - 1];
    }
  }

  datatype Point = Point(start: Day, value: nat)

  function Values(points: seq<Point>): (vs: seq<nat>)
    ensures |vs| == |points| && forall i :: 0 <= i < |points| ==> vs[i] == points[i].value
  {
    seq(|points|, i requires 0 <= i < |points| => points[i].value)
  }

  datatype Granularity = DailyTrend | WeeklyTrend | MonthlyTrend

  function WindowDays(g: Granularity): (w: nat)
    ensures w > 0
  {
    match g
    case DailyTrend => 1
    case WeeklyTrend => 7
    case MonthlyTrend => 30
  }

  /** The first day of window i of n, the newest of which ends on `end`. */
  function WindowStart(n: nat, w: nat, end: Day, i: nat): Day {
    end - (n - i) * w + 1
  }

  ghost predicate IsTrend(store: Store<Bucket>, event: EventKind, w: nat, n: nat, end: Day, points: seq<Point>) {
    |points| == n && forall i :: 0 <= i < n ==>
      points[i] == Point(WindowStart(n, w, end, i), Total(Counts(store, event, DaysFrom(WindowStart(n, w, end, i), w))))
  }

  /**
   One of the four counts of a usage report: over days within the retention it is the number of events recorded
   for them.
   */
  method Usage(repository: AnalyticsRepository, event: EventKind, days: int, end: Day) returns (n: nat)
    ensures n == Total(Counts(repository.store, event, LastNDays(days, end)))
    ensures repository.Valid() && EntriesInTime(repository.store.log) && (days > 0 ==> Retained(repository.store.clock, end - days + 1))
            ==> n == Recorded(repository.store.log, event, end - days + 1, end)
  {
    var counts := repository.CountRange(event, LastNDays(days, end));
    n := Total(counts);
    if repository.Valid() && EntriesInTime(repository.store.log) && (days > 0 ==> Retained(repository.store.clock, end - days + 1)) {
      UsageIsLog(repository.store, event, days, end);
    }
  }

  method Trend(repository: AnalyticsRepository, event: EventKind, g: Granularity, periods: int, end: Day) returns (points: seq<Point>)
    ensures IsTrend(repository.store, event, WindowDays(g), if periods > 0 then periods else 0, end, points)
    ensures forall i :: 0 <= i < |points| ==>
              points[i].start == end + 1 - (|points| - i) * (if g.DailyTrend? then 1 else if g.WeeklyTrend? then 7 else 30)
  {
    var w := WindowDays(g);
    var n := if periods > 0 then periods else 0;
    points := [];
    for i := 0 to n
      invariant |points| == i
      invariant forall j :: 0 <= j < i ==>
                  points[j] == Point(WindowStart(n, w, end, j), Total(Counts(repository.store, event, DaysFrom(WindowStart(n, w, end, j), w))))
    {
      var windowsFromNewest := n - 1 - i;
      var periodEnd := end - windowsFromNewest * w;
      var periodStart := periodEnd - (w - 1);
      WindowBounds(n, w, end, i);
      var days := DaysInRange(periodStart, periodEnd);
      assert days == DaysFrom(WindowStart(n, w, end, i), w);
      var counts := repository.CountRange(event, days);
      points := points + [Point(periodStart, Total(counts))];
    }
  }

  lemma WindowBounds(n: nat, w: nat, end: Day, i: nat)
    requires i < n
    ensures WindowStart(n, w, end, i) == end - (n - 1 - i) * w - (w - 1)
    ensures WindowStart(n, w, end, i + 1) == WindowStart(n, w, end, i) + w
  {
    assert (n - i) * w == (n - 1 - i) * w + w;
  }

  // ----- Windows tile time -----

  /** The days of the first i windows, one after the other. */
  function TiledDays(n: nat, w: nat, end: Day, i: nat): seq<Day>
    requires i <= n
  {
    if i == 0 then [] else TiledDays(n, w, end, i - 1) + DaysFrom(WindowStart(n, w, end, i - 1), w)
  }

  lemma {:induction false} TilesUpTo(n: nat, w: nat, end: Day, i: nat)
    requires i <= n
    ensures TiledDays(n, w, end, i) == DaysFrom(WindowStart(n, w, end, 0), i * w)
    ensures WindowStart(n, w, end, i) == WindowStart(n, w, end, 0) + i * w
  {
    if i > 0 {
      TilesUpTo(n, w, end, i - 1);
      WindowBounds(n, w, end, i - 1);
      assert i * w == (i - 1) * w + w;
    }
  }

  /** The windows follow on from each other and are together exactly the last n * w days. */
  lemma WindowsTile(n: nat, w: nat, end: Day)
    ensures TiledDays(n, w, end, n) == LastNDays(n * w, end)
  {
    TilesUpTo(n, w, end, n);
  }

  lemma CountsConcat(store: Store<Bucket>, event: EventKind, a: seq<Day>, b: seq<Day>)
    ensures Counts(store, event, a + b) == Counts(store, event, a) + Counts(store, event, b)
  {
  }

  lemma {:induction false} PointsAddUp(store: Store<Bucket>, event: EventKind, w: nat, n: nat, end: Day, points: seq<Point>, i: nat)
    requires IsTrend(store, event, w, n, end, points) && i <= n
    ensures Total(Values(points[..i])) == Total(Counts(store, event, TiledDays(n, w, end, i)))
    decreases i
  {
    if i > 0 {
      PointsAddUp(store, event, w, n, end, points, i - 1);
      var window := DaysFrom(WindowStart(n, w, end, i - 1), w);
      CountsConcat(store, event, TiledDays(n, w, end, i - 1), window);
      TotalConcat(Counts(store, event, TiledDays(n, w, end, i - 1)), Counts(store, event, window));
      assert Values(points[..i])[..i - 1] == Values(points[..i - 1]);
      assert points[..i][i - 1] == points[i - 1];
    }
  }

  /** The points of a trend add up to the usage count of the days it spans. */
  lemma TrendIsUsage(store: Store<Bucket>, event: EventKind, w: nat, n: nat, end: Day, points: seq<Point>)
    requires IsTrend(store, event, w, n, end, points)
    ensures Total(Values(points)) == Total(Counts(store, event, LastNDays(n * w, end)))
  {
    PointsAddUp(store, event, w, n, end, points, n);
    assert points[..n] == points;
    WindowsTile(n, w, end);
  }

  /** A coarse point is the sum of the fine points it covers: a week of its seven days, for one. */
  lemma CoarsePointIsSum(store: Store<Bucket>, event: EventKind, m: nat, w: nat, n: nat, end: Day,
                         coarse: seq<Point>, fine: seq<Point>, i: nat)
    requires IsTrend(store, event, m * w, n, end, coarse) && IsTrend(store, event, w, n * m, end, fine) && i < n
    ensures 0 <= i * m <= i * m + m <= |fine|
    ensures coarse[i].value == Total(Values(fine[i * m..i * m + m]))
  {
    assert (i + 1) * m == i * m + m && (i + 1) * m <= n * m;
    var part := fine[i * m..i * m + m];
    var last := WindowStart(n, m * w, end, i) + m * w - 1;
    assert IsTrend(store, event, w, m, last, part) by {
      forall j | 0 <= j < m ensures part[j] == Point(WindowStart(m, w, last, j), Total(Counts(store, event, DaysFrom(WindowStart(m, w, last, j), w)))) {
        SameStart(m, w, n, end, i, j);
      }
    }
    TrendIsUsage(store, event, w, m, last, part);
    assert LastNDays(m * w, last) == DaysFrom(WindowStart(n, m * w, end, i), m * w);
  }

  lemma SameStart(m: nat, w: nat, n: nat, end: Day, i: nat, j: nat)
    requires i < n && j < m
    ensures WindowStart(n * m, w, end, i * m + j) == WindowStart(m, w, WindowStart(n, m * w, end, i) + m * w - 1, j)
  {
    assert (n * m - (i * m + j)) * w == (n - i) * (m * w) - j * w by {
      assert n * m - (i * m + j) == (n - i) * m - j;
      assert ((n - i) * m - j) * w == ((n - i) * m) * w - j * w;
      assert ((n - i) * m) * w == (n - i) * (m * w);
    }
    assert (m - j) * w == m * w - j * w;
  }

  // ----- Counts agree with the log -----

  lemma {:induction false} RecordedSplits(log: seq<Increment<Bucket>>, event: EventKind, a: Day, b: Day)
    requires a <= b + 1
    ensures Recorded(log, event, a, b + 1) == Recorded(log, event, a, b) + Count(log, Bucket(event, b + 1))
    ensures Recorded(log, event, a, a - 1) == 0
  {
    if log != [] {
      RecordedSplits(log[..|log| - 1], event, a, b);
    }
  }

  /** A bucket that is not older than the retention holds the number of its events. */
  lemma BucketIsLog(store: Store<Bucket>, event: EventKind, d: Day)
    requires Kept(store, TTL) && EntriesInTime(store.log) && Retained(store.clock, d)
    ensures Get(store, Bucket(event, d)) == Count(store.log, Bucket(event, d))
  {
    var b := Bucket(event, d);
    if First(store.log, b).Some? { FirstIsAnEntry(store.log, b); }
    CounterIsLog(store, TTL, b);
  }

  /** The counts of retained days add up to the number of events recorded for them. */
  lemma {:induction false} CountsAreLog(store: Store<Bucket>, event: EventKind, a: Day, n: nat)
    requires Kept(store, TTL) && EntriesInTime(store.log) && (n > 0 ==> Retained(store.clock, a))
    ensures Total(Counts(store, event, DaysFrom(a, n))) == Recorded(store.log, event, a, a + n - 1)
    decreases n
  {
    RecordedSplits(store.log, event, a, a + n - 2 + if n == 0 then 1 else 0);
    if n > 0 {
      CountsAreLog(store, event, a, n - 1);
      BucketIsLog(store, event, a + n - 1);
      assert DaysFrom(a, n)[..n - 1] == DaysFrom(a, n - 1);
      assert Counts(store, event, DaysFrom(a, n))[..n - 1] == Counts(store, event, DaysFrom(a, n - 1));
    }
  }

  lemma {:induction false} NothingRecorded(log: seq<Increment<Bucket>>, event: EventKind, a: Day, b: Day)
    requires b < a
    ensures Recorded(log, event, a, b) == 0
  {
    if log != [] { NothingRecorded(log[..|log| - 1], event, a, b); }
  }

  lemma UsageIsLog(store: Store<Bucket>, event: EventKind, days: int, end: Day)
    requires Kept(store, TTL) && EntriesInTime(store.log) && (days > 0 ==> Retained(store.clock, end - days + 1))
    ensures Total(Counts(store, event, LastNDays(days, end))) == Recorded(store.log, event, end - days + 1, end)
  {
    if days > 0 {
      assert LastNDays(days, end) == DaysFrom(end - days + 1, days);
      CountsAreLog(store, event, end - days + 1, days);
    } else {
      NothingRecorded(store.log, event, end - days + 1, end);
    }
  }

  /** Each point of a trend that lies within the retention is the number of events recorded for its window. */
  lemma TrendIsLog(store: Store<Bucket>, event: EventKind, w: nat, n: nat, end: Day, points: seq<Point>, i: nat)
    requires Kept(store, TTL) && EntriesInTime(store.log)
    requires IsTrend(store, event, w, n, end, points) && i < n && Retained(store.clock, points[i].start)
    ensures points[i].value == Recorded(store.log, event, points[i].start, points[i].start + w - 1)
  {
    CountsAreLog(store, event, WindowStart(n, w, end, i), w);
  }

  /** The bucket's first event is recorded as its day begins, and the clock moves on. */
  function Lapsed(b: Bucket, d: nat): Store<Bucket> {
    Pass(Expire(Incr(Empty(b.day * DAY), b), b, TTL(b)), d)
  }

  lemma LapsedKept(b: Bucket, d: nat)
    ensures Kept(Lapsed(b, d), TTL) && EntriesInTime(Lapsed(b, d).log)
    ensures Lapsed(b, d).clock == b.day * DAY + d && Count(Lapsed(b, d).log, b) == 1
    ensures d >= TTL(b) ==> Get(Lapsed(b, d), b) == 0
  {
    var start := b.day * DAY;
    var s := Incr(Empty(start), b);
    EmptyKept(start, TTL);
    IncrKept(Empty(start), TTL, b);
    ExpireKept(s, TTL, b);
    PassKept(Expire(s, b, TTL(b)), TTL, d);
    assert s.log == [Increment(b, start, 1)];
    Snoc([], Increment(b, start, 1), b);
  }

  /** Whatever was recorded by that time, the bucket of the day holds all its events. */
  ghost predicate AlwaysExact(event: EventKind, clock: Time, d: Day) {
    forall store: Store<Bucket> | Kept(store, TTL) && EntriesInTime(store.log) && store.clock == clock ::
      Get(store, Bucket(event, d)) == Count(store.log, Bucket(event, d))
  }

  /** The retention is the exact bound: at any time the days whose buckets are sure to be complete are the retained ones. */
  lemma RetainedExactly(event: EventKind, clock: Time, d: Day)
    ensures AlwaysExact(event, clock, d) <==> Retained(clock, d)
  {
    var b := Bucket(event, d);
    if Retained(clock, d) {
      forall store: Store<Bucket> | Kept(store, TTL) && EntriesInTime(store.log) && store.clock == clock
        ensures Get(store, b) == Count(store.log, b)
      {
        BucketIsLog(store, event, d);
      }
    } else {
      assert clock >= (d + RETENTION_DAYS) * DAY;
      LapsedKept(b, clock - d * DAY);
    }
  }
}
