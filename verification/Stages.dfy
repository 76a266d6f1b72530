/**
 The smoke runner's stages (scripts/smoke/runner.py): `resolve_stages` closes a request under
 dependencies, `run_groups` runs check groups in order and stops after a critical failure.
 */
module Stages {
  import opened Wrappers

  type Stage = string

  type Dependencies = map<Stage, set<Stage>>

  function Needs(deps: Dependencies, s: Stage): set<Stage> {
    if s in deps then deps[s] else {}
  }

  ghost predicate Closed(deps: Dependencies, stages: set<Stage>) {
    forall s :: s in stages ==> Needs(deps, s) <= stages
  }

  /** Every stage that occurs as a dependency. */
  ghost function Mentioned(deps: Dependencies): set<Stage> {
    set s, t | s in deps && t in deps[s] :: t
  }

  /** A chain of dependencies from one stage to another. */
  ghost predicate Chain(deps: Dependencies, path: seq<Stage>) {
    path != [] && forall i :: 0 <= i < |path| - 1 ==> path[i + 1] in Needs(deps, path[i])
  }

  /** Nothing is there that neither was requested nor is a dependency of something there. */
  ghost predicate Wanted(deps: Dependencies, requested: set<Stage>, stages: set<Stage>) {
    forall t :: t in stages && t !in requested ==> exists s :: s in stages && s in deps && t in deps[s]
  }

  /**
   Terminates whatever the dependencies are, cycles included, with the least set that contains the
   request and is closed.
   */
  method ResolveStages(deps: Dependencies, requested: set<Stage>) returns (resolved: set<Stage>)
    ensures requested <= resolved && Closed(deps, resolved)
    ensures forall c :: requested <= c && Closed(deps, c) ==> resolved <= c
    ensures forall s, t :: s in resolved && s in deps && t in deps[s] ==> t in resolved
    ensures forall t :: t in resolved && t !in requested ==> exists s :: s in resolved && s in deps && t in deps[s]
  {
    resolved := requested;
    while true
      invariant requested <= resolved <= requested + Mentioned(deps)
      invariant Wanted(deps, requested, resolved)
      invariant forall c :: requested <= c && Closed(deps, c) ==> resolved <= c
      decreases requested + Mentioned(deps) - resolved
    {
      var expanded := resolved;
      var rest := resolved;
      while rest != {}
        invariant rest <= resolved <= expanded <= requested + Mentioned(deps)
        invariant Wanted(deps, requested, expanded)
        invariant forall s :: s in resolved - rest ==> Needs(deps, s) <= expanded
        invariant forall c :: requested <= c && Closed(deps, c) ==> expanded <= c
        decreases rest
      {
        var stage :| stage in rest;
        forall c | requested <= c && Closed(deps, c) ensures expanded + Needs(deps, stage) <= c {
          assert stage in c;
        }
        expanded := expanded + Needs(deps, stage);
        rest := rest - {stage};
      }
      if expanded == resolved {
        forall s, t | s in resolved && s in deps && t in deps[s] ensures t in resolved { assert t in Needs(deps, s); }
        return;
      }
      resolved := expanded;
    }
  }

  lemma {:induction false} ChainStays(deps: Dependencies, stages: set<Stage>, path: seq<Stage>)
    requires Closed(deps, stages) && Chain(deps, path) && path[0] in stages
    ensures path[|path| - 1] in stages
    decreases |path|
  {
    if |path| > 1 {
      assert path[1] in Needs(deps, path[0]);
      ChainStays(deps, stages, path[1..]);
    }
  }

  ghost predicate Reached(deps: Dependencies, requested: set<Stage>, s: Stage) {
    exists path :: Chain(deps, path) && path[0] in requested && path[|path| - 1] == s
  }

  lemma ReachFurther(deps: Dependencies, requested: set<Stage>, s: Stage, t: Stage)
    requires Reached(deps, requested, s) && t in Needs(deps, s)
    ensures Reached(deps, requested, t)
  {
    var path :| Chain(deps, path) && path[0] in requested && path[|path| - 1] == s;
    var longer := path + [t];
    assert Chain(deps, longer) && longer[0] in requested && longer[|longer| - 1] == t;
  }

  lemma ReachedStays(deps: Dependencies, requested: set<Stage>, stages: set<Stage>, s: Stage)
    requires requested <= stages && Closed(deps, stages) && Reached(deps, requested, s)
    ensures s in stages
  {
    var path :| Chain(deps, path) && path[0] in requested && path[|path| - 1] == s;
    ChainStays(deps, stages, path);
  }

  /** The least closed set is what chains of dependencies reach from the request. */
  lemma ResolvedIsReachable(deps: Dependencies, requested: set<Stage>, resolved: set<Stage>, s: Stage)
    requires requested <= resolved && Closed(deps, resolved)
    requires forall c :: requested <= c && Closed(deps, c) ==> resolved <= c
    ensures s in resolved <==> Reached(deps, requested, s)
  {
    if Reached(deps, requested, s) {
      ReachedStays(deps, requested, resolved, s);
    }
    var reached := set t | t in resolved && Reached(deps, requested, t);
    forall t | t in requested ensures t in reached {
      assert Chain(deps, [t]) && [t][0] in requested && [t][|[t]| - 1] == t;
    }
    forall t | t in reached ensures Needs(deps, t) <= reached {
      forall u | u in Needs(deps, t) ensures u in reached {
        ReachFurther(deps, requested, t, u);
      }
    }
    assert requested <= reached && Closed(deps, reached);
  }

  // ----- Running check groups -----

  /** What calling a check comes to; any other exception than the three that are caught ends the run. */
  datatype Outcome = Passes(detail: string) | Fails(detail: string) | Unreachable(detail: string) | Missing(detail: string) | Raises(detail: string)

  datatype Check = Check(name: string, outcome: Outcome)

  datatype CheckGroup = CheckGroup(title: string, checks: seq<Check>, critical: bool)

  datatype CheckResult = CheckResult(name: string, group: string, passed: bool, detail: string)

  datatype Report = Report(results: seq<CheckResult>, aborted: bool)

  function Recorded(group: string, c: Check): CheckResult {
    match c.outcome
    case Passes(d) => CheckResult(c.name, group, true, d)
    case Unreachable(d) => CheckResult(c.name, group, false, "unreachable: " + d)
    case Missing(d) => CheckResult(c.name, group, false, "missing prerequisite: " + d)
    case _ => CheckResult(c.name, group, false, c.outcome.detail)
  }

  predicate Sound(g: CheckGroup) {
    forall i :: 0 <= i < |g.checks| ==> !g.checks[i].outcome.Raises?
  }

  predicate Failed(g: CheckGroup) {
    exists i :: 0 <= i < |g.checks| && !g.checks[i].outcome.Passes?
  }

  function GroupResults(g: CheckGroup): (rs: seq<CheckResult>)
    ensures |rs| == |g.checks| && forall i :: 0 <= i < |rs| ==> rs[i] == Recorded(g.title, g.checks[i])
  {
    seq(|g.checks|, i requires 0 <= i < |g.checks| => Recorded(g.title, g.checks[i]))
  }

  function Results(groups: seq<CheckGroup>): seq<CheckResult> {
    if groups == [] then [] else Results(groups[..|groups| - 1]) + GroupResults(groups[|groups| - 1])
  }

  /** The result of a check: its name, the title of its group, whether it passed, and why not. */
  ghost predicate Reports(r: CheckResult, title: string, c: Check) {
    && r.name == c.name && r.group == title && (r.passed <==> c.outcome.Passes?)
    && match c.outcome
       case Unreachable(d) => r.detail == "unreachable: " + d
       case Missing(d) => r.detail == "missing prerequisite: " + d
       case Passes(d) => r.detail == d
       case Fails(d) => r.detail == d
       case Raises(d) => true
  }

  function CheckCount(groups: seq<CheckGroup>): nat {
    if groups == [] then 0 else |groups[0].checks| + CheckCount(groups[1..])
  }

  /** Every check of every group is reported, in the order of the groups and of the checks in them. */
  lemma {:induction false} ReportedInOrder(groups: seq<CheckGroup>, k: nat, i: nat)
    requires k < |groups| && i < |groups[k].checks|
    ensures |Results(groups)| == CheckCount(groups)
    ensures CheckCount(groups[..k]) + i < |Results(groups)|
    ensures Reports(Results(groups)[CheckCount(groups[..k]) + i], groups[k].title, groups[k].checks[i])
  {
    var n := |groups| - 1;
    ResultsCount(groups[..n]);
    CountSplit(groups[..n], groups[n]);
    assert groups == groups[..n] + [groups[n]];
    if k < n {
      ReportedInOrder(groups[..n], k, i);
      assert groups[..n][..k] == groups[..k];
    }
  }

  lemma {:induction false} ResultsCount(groups: seq<CheckGroup>)
    ensures |Results(groups)| == CheckCount(groups)
  {
    if groups != [] {
      var n := |groups| - 1;
      ResultsCount(groups[..n]);
      CountSplit(groups[..n], groups[n]);
      assert groups == groups[..n] + [groups[n]];
    }
  }

  lemma {:induction false} CountSplit(groups: seq<CheckGroup>, last: CheckGroup)
    ensures CheckCount(groups + [last]) == CheckCount(groups) + |last.checks|
  {
    if groups != [] {
      assert (groups + [last])[1..] == groups[1..] + [last];
      CountSplit(groups[1..], last);
    }
  }

  /** The first critical group that fails is the last one that runs. */
  ghost predicate StopsAt(groups: seq<CheckGroup>, n: nat, aborted: bool) {
    && n <= |groups|
    && (forall i :: 0 <= i < n && !(aborted && i == n - 1) ==> !(groups[i].critical && Failed(groups[i])))
    && (if aborted then n > 0 && groups[n - 1].critical && Failed(groups[n - 1]) else n == |groups|)
  }

  ghost predicate AllSound(groups: seq<CheckGroup>) {
    forall i :: 0 <= i < |groups| ==> Sound(groups[i])
  }

  /** Group n is reached, and a check in it raises something that is not caught. */
  ghost predicate RaisesAt(groups: seq<CheckGroup>, n: nat) {
    n < |groups| && StopsAt(groups[..n], n, false) && AllSound(groups[..n]) && !Sound(groups[n])
  }

  method RunGroups(groups: seq<CheckGroup>) returns (r: Option<Report>)
    ensures r.Some? ==> exists n: nat :: StopsAt(groups, n, r.value.aborted) && AllSound(groups[..n]) && r.value.results == Results(groups[..n])
    ensures r.None? ==> exists n: nat :: RaisesAt(groups, n)
  {
    var results: seq<CheckResult> := [];
    for k := 0 to |groups|
      invariant StopsAt(groups[..k], k, false) && AllSound(groups[..k]) && results == Results(groups[..k])
    {
      var group := groups[k];
      assert groups[..k + 1][..k] == groups[..k];
      ghost var before := results;
      var groupFailed := false;
      for i := 0 to |group.checks|
        invariant results == before + GroupResults(group)[..i]
        invariant forall j :: 0 <= j < i ==> !group.checks[j].outcome.Raises?
        invariant groupFailed <==> exists j :: 0 <= j < i && !group.checks[j].outcome.Passes?
      {
        var check := group.checks[i];
        if check.outcome.Raises? {
          assert RaisesAt(groups, k);
          return None;
        }
        var result := Recorded(group.title, check);
        results := results + [result];
        groupFailed := groupFailed || !result.passed;
      }
      assert results == Results(groups[..k + 1]);
      if groupFailed && group.critical {
        assert StopsAt(groups, k + 1, true);
        return Some(Report(results, true));
      }
    }
    assert groups[..|groups|] == groups;
    assert StopsAt(groups, |groups|, false);
    r := Some(Report(results, false));
  }

  predicate AllPassed(rs: seq<CheckResult>) {
    forall i :: 0 <= i < |rs| ==> rs[i].passed
  }

  lemma PassedConcat(a: seq<CheckResult>, b: seq<CheckResult>)
    ensures AllPassed(a + b) <==> AllPassed(a) && AllPassed(b)
  {
    assert forall i :: 0 <= i < |b| ==> (a + b)[|a| + i] == b[i];
    assert forall i :: 0 <= i < |a| ==> (a + b)[i] == a[i];
  }

  lemma PassedGroup(g: CheckGroup)
    ensures AllPassed(GroupResults(g)) <==> !Failed(g)
  {
    var rs := GroupResults(g);
    assert forall i :: 0 <= i < |rs| ==> (rs[i].passed <==> g.checks[i].outcome.Passes?);
  }

  lemma {:induction false} AllPass(groups: seq<CheckGroup>)
    ensures AllPassed(Results(groups)) <==> forall k :: 0 <= k < |groups| ==> !Failed(groups[k])
  {
    if groups != [] {
      var n := |groups| - 1;
      AllPass(groups[..n]);
      PassedConcat(Results(groups[..n]), GroupResults(groups[n]));
      PassedGroup(groups[n]);
      assert forall k :: 0 <= k < n ==> groups[..n][k] == groups[k];
    }
  }

  /** Where a run stops is determined, and the green verdict means that every group ran and every check passed. */
  lemma GreenMeansAllPassed(groups: seq<CheckGroup>, n: nat, aborted: bool)
    requires StopsAt(groups, n, aborted)
    ensures !aborted && AllPassed(Results(groups[..n])) <==> forall k :: 0 <= k < |groups| ==> !Failed(groups[k])
    ensures forall m: nat, other: bool :: StopsAt(groups, m, other) ==> m == n && other == aborted
  {
    AllPass(groups[..n]);
    assert forall k :: 0 <= k < n ==> groups[..n][k] == groups[k];
    assert groups[..|groups|] == groups;
  }
}
