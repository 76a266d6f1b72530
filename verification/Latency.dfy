/**
 The processing latencies of a day as two Redis keys, a sum and a count
 (backend/app/repositories/analytics_repository.py, `record_latency`, `latency_range`), written by
 two commands a sample. A failure is swallowed, wherever it strikes.
 */
module Latencies {
  import opened RealArithmetic

  type Day = int

  /** How far a sample got: to neither key, to the sum alone, or to both. */
  datatype Reach = Neither | SumOnly | Both

  datatype Sample = Sample(day: Day, seconds: real, reach: Reach)

  /** Where Redis fails while a sample is recorded, if at all: only the first two failures lose anything. */
  datatype Fault = NoFault | BeforeSum | BeforeCount | BeforeExpire

  function ReachOf(fault: Fault): Reach {
    match fault
    case BeforeSum => Neither
    case BeforeCount => SumOnly
    case _ => Both
  }

  /** The samples of a day that reached both keys, added up. */
  function Counted(log: seq<Sample>, d: Day): real {
    if log == [] then 0.0
    else
      var last := log[|log| - 1];
      Counted(log[..|log| - 1], d) + if last.day == d && last.reach.Both? then last.seconds else 0.0
  }

  /** How many there were. */
  function Samples(log: seq<Sample>, d: Day): nat {
    if log == [] then 0
    else
      var last := log[|log| - 1];
      Samples(log[..|log| - 1], d) + if last.day == d && last.reach.Both? then 1 else 0
  }

  /** The seconds of a day that reached the sum and were not counted. */
  function Stray(log: seq<Sample>, d: Day): real {
    if log == [] then 0.0
    else
      var last := log[|log| - 1];
      Stray(log[..|log| - 1], d) + if last.day == d && last.reach.SumOnly? then last.seconds else 0.0
  }

  lemma OneMore(log: seq<Sample>, s: Sample)
    ensures forall d :: Counted(log + [s], d) == Counted(log, d) + if s.day == d && s.reach.Both? then s.seconds else 0.0
    ensures forall d :: Samples(log + [s], d) == Samples(log, d) + if s.day == d && s.reach.Both? then 1 else 0
    ensures forall d :: Stray(log + [s], d) == Stray(log, d) + if s.day == d && s.reach.SumOnly? then s.seconds else 0.0
  {
    assert (log + [s])[..|log|] == log;
  }

  // ----- Over a list of days -----

  function CountedIn(log: seq<Sample>, days: seq<Day>): real {
    if days == [] then 0.0 else CountedIn(log, days[..|days| - 1]) + Counted(log, days[|days| - 1])
  }

  function SamplesIn(log: seq<Sample>, days: seq<Day>): nat {
    if days == [] then 0 else SamplesIn(log, days[..|days| - 1]) + Samples(log, days[|days| - 1])
  }

  function StrayIn(log: seq<Sample>, days: seq<Day>): real {
    if days == [] then 0.0 else StrayIn(log, days[..|days| - 1]) + Stray(log, days[|days| - 1])
  }

  class LatencyRepository {
    var sums: map<Day, real>
    var counts: map<Day, nat>
    ghost var log: seq<Sample>

    function Sum(d: Day): real
      reads this
    {
      if d in sums then sums[d] else 0.0
    }

    function CountOf(d: Day): nat
      reads this
    {
      if d in counts then counts[d] else 0
    }

    ghost predicate Valid()
      reads this
    {
      forall d :: Sum(d) == Counted(log, d) + Stray(log, d) && CountOf(d) == Samples(log, d)
    }

    constructor ()
      ensures Valid() && log == []
    {
      sums, counts, log := map[], map[], [];
    }

    /** Never fails; a fault between the two commands leaves the seconds without their count. */
    method RecordLatency(seconds: real, day: Day, fault: Fault)
      requires Valid()
      modifies this
      ensures Valid() && log == old(log) + [Sample(day, seconds, ReachOf(fault))]
    {
      OneMore(log, Sample(day, seconds, ReachOf(fault)));
      log := log + [Sample(day, seconds, ReachOf(fault))];
      if fault.BeforeSum? { return; }
      sums := sums[day := Sum(day) + seconds];
      if fault.BeforeCount? { return; }
      counts := counts[day := CountOf(day) + 1];
    }

    /** The total and the count over some days. */
    method LatencyRange(days: seq<Day>) returns (total: real, count: nat)
      requires Valid()
      ensures total == CountedIn(log, days) + StrayIn(log, days)
      ensures count == SamplesIn(log, days)
    {
      total, count := 0.0, 0;
      for i := 0 to |days|
        invariant total == CountedIn(log, days[..i]) + StrayIn(log, days[..i])
        invariant count == SamplesIn(log, days[..i])
      {
        assert days[..i + 1][..i] == days[..i] && days[..i + 1] != [];
        total := total + Sum(days[i]);
        count := count + CountOf(days[i]);
      }
      assert days[..|days|] == days;
    }
  }

  // ----- When the average is right -----

  ghost predicate NotNegative(log: seq<Sample>) {
    forall i | 0 <= i < |log| :: log[i].seconds >= 0.0
  }

  /** No sample of the day that took any time stopped between the two keys. */
  ghost predicate NothingStray(log: seq<Sample>, d: Day) {
    forall i | 0 <= i < |log| && log[i].day == d && log[i].reach.SumOnly? :: log[i].seconds == 0.0
  }

  lemma {:induction false} StrayExactly(log: seq<Sample>, d: Day)
    requires NotNegative(log)
    ensures Stray(log, d) >= 0.0
    ensures Stray(log, d) == 0.0 <==> NothingStray(log, d)
  {
    if log != [] {
      var n := |log| - 1;
      StrayExactly(log[..n], d);
      assert forall i | 0 <= i < n :: log[..n][i] == log[i];
      if NothingStray(log[..n], d) && (log[n].day == d && log[n].reach.SumOnly? ==> log[n].seconds == 0.0) {
        assert NothingStray(log, d);
      }
    }
  }

  ghost predicate NothingStrayIn(log: seq<Sample>, days: seq<Day>) {
    forall k | 0 <= k < |days| :: NothingStray(log, days[k])
  }

  lemma {:induction false} StrayOver(log: seq<Sample>, days: seq<Day>)
    requires NotNegative(log)
    ensures StrayIn(log, days) >= 0.0
    ensures StrayIn(log, days) == 0.0 <==> NothingStrayIn(log, days)
  {
    if days != [] {
      var n := |days| - 1;
      StrayOver(log, days[..n]);
      StrayExactly(log, days[n]);
      assert forall k | 0 <= k < n :: days[..n][k] == days[k];
      if NothingStrayIn(log, days[..n]) && NothingStray(log, days[n]) { assert NothingStrayIn(log, days); }
    }
  }

  /** `usage`: the average, or 0 without a sample. */
  function Average(total: real, count: nat): real {
    if count == 0 then 0.0 else total / (count as real)
  }

  /**
   The average of a usage report is that of the samples counted, and otherwise above it; it is so exactly if there
   are none, or no sample of those days that took any time stopped between the two keys.
   */
  lemma AverageExactly(log: seq<Sample>, days: seq<Day>)
    requires NotNegative(log)
    ensures var counted, count := CountedIn(log, days), SamplesIn(log, days);
            var total := counted + StrayIn(log, days);
            && (count > 0 ==> Product(Average(total, count), count as real) == total) && (count == 0 ==> Average(total, count) == 0.0)
            && Average(total, count) >= Average(counted, count)
            && (Average(total, count) == Average(counted, count) <==> count == 0 || NothingStrayIn(log, days))
  {
    var counted, stray, count := CountedIn(log, days), StrayIn(log, days), SamplesIn(log, days);
    StrayOver(log, days);
    if count > 0 {
      ShiftedQuotient(counted, stray, count as real);
      DivMul(counted + stray, count as real);
    }
  }

  lemma ShiftedQuotient(a: real, b: real, n: real)
    requires n > 0.0 && b >= 0.0
    ensures (a + b) / n >= a / n && ((a + b) / n == a / n <==> b == 0.0)
  {
    assert (a + b) / n == a / n + b / n;
    assert b > 0.0 ==> b / n > 0.0;
  }
}
