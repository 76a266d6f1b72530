/**
 Double-checked loading of cross-encoder models
 (backend/app/services/model_manager_cross_encoder.py, `get_model`, `_warmup`, `is_loaded`):
 any number of threads share one dict of loaded models and one lock; a look at the dict, an
 acquisition, a load, a publication, a warm-up and a release are one step each, in any
 interleaving, and a load may fail.
 */
module ModelCaches {
  import opened Wrappers

  type Name = string
  type Model = nat // the identity of a loaded instance
  type ThreadId = nat

  datatype LoadError = LoadError(reason: string)

  /** Where a thread stands in `get_model`: each constructor names the step it takes next. */
  datatype Phase =
    | Outside
    | Looking(name: Name)                  // the look without the lock
    | Waiting(name: Name)                  // acquire
    | Rechecking(name: Name)               // the look with the lock
    | Loading(name: Name)                  // the loader returns or raises
    | Publishing(name: Name, model: Model) // store in the dict
    | Warming(name: Name, model: Model)    // the warm-up inference, whatever comes of it
    | Leaving(name: Name, model: Model)    // release, return
    | Failing(name: Name)                  // release, raise

  /** What happened, in order. */
  datatype Entry = Loaded(name: Name, model: Model) | NotLoaded(name: Name) | Warmed(name: Name, model: Model)
                 | Given(thread: ThreadId, name: Name, model: Model)

  datatype World = World(cache: map<Name, Model>, holder: Option<ThreadId>, threads: map<ThreadId, Phase>, log: seq<Entry>)

  datatype Event = Call(t: ThreadId, wanted: Name) | Go(t: ThreadId) | LoadFails(t: ThreadId) | LoadReturns(t: ThreadId, loaded: Model)

  const START := World(map[], None, map[], [])

  function At(w: World, t: ThreadId): Phase {
    if t in w.threads then w.threads[t] else Outside
  }

  function Put(w: World, t: ThreadId, p: Phase): World {
    w.(threads := w.threads[t := p])
  }

  function Give(w: World, t: ThreadId, name: Name, model: Model): World {
    Put(w, t, Outside).(log := w.log + [Given(t, name, model)])
  }

  predicate Enabled(w: World, e: Event) {
    match e
    case Call(t, _) => At(w, t).Outside?
    case Go(t) => var p := At(w, t); !p.Outside? && !p.Loading? && (p.Waiting? ==> w.holder == None)
    case LoadFails(t) => At(w, t).Loading?
    case LoadReturns(t, _) => At(w, t).Loading?
  }

  function Advance(warmup: bool, w: World, t: ThreadId): World {
    match At(w, t)
    case Looking(n) => if n in w.cache then Give(w, t, n, w.cache[n]) else Put(w, t, Waiting(n))
    case Waiting(n) => Put(w, t, Rechecking(n)).(holder := Some(t))
    case Rechecking(n) => Put(w, t, if n in w.cache then Leaving(n, w.cache[n]) else Loading(n))
    case Publishing(n, m) => Put(w, t, if warmup then Warming(n, m) else Leaving(n, m)).(cache := w.cache[n := m])
    case Warming(n, m) => Put(w, t, Leaving(n, m)).(log := w.log + [Warmed(n, m)])
    case Leaving(n, m) => Give(w, t, n, m).(holder := None)
    case Failing(n) => Put(w, t, Outside).(holder := None)
    case _ => w
  }

  function Step(warmup: bool, w: World, e: Event): World {
    match e
    case Call(t, n) => Put(w, t, Looking(n))
    case Go(t) => Advance(warmup, w, t)
    case LoadFails(t) =>
      (match At(w, t)
       case Loading(n) => Put(w, t, Failing(n)).(log := w.log + [NotLoaded(n)])
       case _ => w)
    case LoadReturns(t, m) =>
      (match At(w, t)
       case Loading(n) => Put(w, t, Publishing(n, m)).(log := w.log + [Loaded(n, m)])
       case _ => w)
  }

  predicate Possible(warmup: bool, w: World, es: seq<Event>)
    decreases |es|
  {
    es == [] || (Enabled(w, es[0]) && Possible(warmup, Step(warmup, w, es[0]), es[1..]))
  }

  function Run(warmup: bool, w: World, es: seq<Event>): World
    decreases |es|
  {
    if es == [] then w else Run(warmup, Step(warmup, w, es[0]), es[1..])
  }

  ghost predicate Reachable(warmup: bool, w: World) {
    exists es :: Possible(warmup, START, es) && Run(warmup, START, es) == w
  }

  // ----- What every step keeps -----

  predicate HoldsLock(p: Phase) {
    p.Rechecking? || p.Loading? || p.Publishing? || p.Warming? || p.Leaving? || p.Failing?
  }

  ghost predicate OneHolder(w: World) {
    forall t: ThreadId :: HoldsLock(At(w, t)) <==> w.holder == Some(t)
  }

  predicate Cached(w: World, n: Name, m: Model) {
    n in w.cache && w.cache[n] == m
  }

  /** The phase of the thread in the critical section, if there is one. */
  function Inner(w: World): Phase {
    if w.holder.Some? then At(w, w.holder.value) else Outside
  }

  ghost predicate LoadsPublished(w: World) {
    && (forall n, m :: Loaded(n, m) in w.log ==> Cached(w, n, m) || Inner(w) == Publishing(n, m))
    && (forall n :: n in w.cache ==> Loaded(n, w.cache[n]) in w.log)
    && (Inner(w).Loading? || Inner(w).Publishing? ==> Inner(w).name !in w.cache)
    && (Inner(w).Publishing? ==> Loaded(Inner(w).name, Inner(w).model) in w.log)
  }

  ghost predicate LoadedOnce(log: seq<Entry>) {
    forall i, j :: 0 <= i < j < |log| && log[i].Loaded? && log[j].Loaded? ==> log[i].name != log[j].name
  }

  ghost predicate WarmedOnce(log: seq<Entry>) {
    forall i, j :: 0 <= i < j < |log| && log[i].Warmed? && log[j].Warmed? ==> log[i].name != log[j].name
  }

  /** A published model has been warmed up, or the thread that published it is doing so. */
  ghost predicate WarmupsFollow(warmup: bool, w: World) {
    && (forall n, m :: Warmed(n, m) in w.log ==> warmup && Cached(w, n, m) && Inner(w) != Warming(n, m))
    && (forall n :: warmup && n in w.cache ==> Warmed(n, w.cache[n]) in w.log || Inner(w) == Warming(n, w.cache[n]))
    && (Inner(w).Warming? ==> warmup)
  }

  ghost predicate GivenFromCache(w: World) {
    && (forall t, n, m :: Given(t, n, m) in w.log ==> Cached(w, n, m))
    && (Inner(w).Warming? || Inner(w).Leaving? ==> Cached(w, Inner(w).name, Inner(w).model))
  }

  ghost predicate Inv(warmup: bool, w: World) {
    && OneHolder(w) && LoadsPublished(w) && LoadedOnce(w.log) && WarmedOnce(w.log)
    && WarmupsFollow(warmup, w) && GivenFromCache(w)
  }

  lemma HolderStep(warmup: bool, w: World, e: Event)
    requires OneHolder(w) && Enabled(w, e)
    ensures OneHolder(Step(warmup, w, e))
  {
    var w' := Step(warmup, w, e);
    forall t: ThreadId ensures HoldsLock(At(w', t)) <==> w'.holder == Some(t) {
      assert HoldsLock(At(w, t)) <==> w.holder == Some(t);
      assert HoldsLock(At(w, e.t)) <==> w.holder == Some(e.t);
    }
  }

  /** What the critical section looks like after a step. */
  lemma InnerStep(warmup: bool, w: World, e: Event)
    requires OneHolder(w) && Enabled(w, e)
    ensures !HoldsLock(At(w, e.t)) && !(At(w, e.t).Waiting? && e.Go?) ==> Inner(Step(warmup, w, e)) == Inner(w)
    ensures HoldsLock(At(w, e.t)) ==> Inner(w) == At(w, e.t)
    ensures Inner(w).Outside? <==> w.holder == None
  {
    if w.holder.Some? {
      assert HoldsLock(At(w, w.holder.value)) <==> w.holder == Some(w.holder.value);
    }
    assert HoldsLock(At(w, e.t)) <==> w.holder == Some(e.t);
  }

  lemma LoadsStep(warmup: bool, w: World, e: Event)
    requires OneHolder(w) && LoadsPublished(w) && Enabled(w, e)
    ensures LoadsPublished(Step(warmup, w, e))
  {
    InnerStep(warmup, w, e);
    HolderStep(warmup, w, e);
    Appending(warmup, w, e);
  }

  /** The log grows by at most one entry. */
  lemma Appending(warmup: bool, w: World, e: Event)
    ensures var log := Step(warmup, w, e).log; log == w.log || (|log| == |w.log| + 1 && log == w.log + [log[|w.log|]])
  {
  }

  lemma OnceStep(warmup: bool, w: World, e: Event)
    requires OneHolder(w) && LoadsPublished(w) && WarmupsFollow(warmup, w) && Enabled(w, e)
    requires LoadedOnce(w.log) && WarmedOnce(w.log)
    requires GivenFromCache(w)
    ensures LoadedOnce(Step(warmup, w, e).log) && WarmedOnce(Step(warmup, w, e).log)
  {
    InnerStep(warmup, w, e);
    Appending(warmup, w, e);
    var log := Step(warmup, w, e).log;
    forall i, j | 0 <= i < j < |log| && log[i].Loaded? && log[j].Loaded? ensures log[i].name != log[j].name {
      assert Loaded(log[i].name, log[i].model) == w.log[i];
    }
    forall i, j | 0 <= i < j < |log| && log[i].Warmed? && log[j].Warmed? ensures log[i].name != log[j].name {
      assert Warmed(log[i].name, log[i].model) == w.log[i];
    }
  }

  lemma WarmupsStep(warmup: bool, w: World, e: Event)
    requires OneHolder(w) && LoadsPublished(w) && WarmupsFollow(warmup, w) && GivenFromCache(w) && Enabled(w, e)
    ensures WarmupsFollow(warmup, Step(warmup, w, e))
  {
    InnerStep(warmup, w, e);
    Appending(warmup, w, e);
  }

  lemma GivenStep(warmup: bool, w: World, e: Event)
    requires OneHolder(w) && LoadsPublished(w) && GivenFromCache(w) && Enabled(w, e)
    ensures GivenFromCache(Step(warmup, w, e))
  {
    InnerStep(warmup, w, e);
    Appending(warmup, w, e);
  }

  lemma InvStep(warmup: bool, w: World, e: Event)
    requires Inv(warmup, w) && Enabled(w, e)
    ensures Inv(warmup, Step(warmup, w, e))
  {
    HolderStep(warmup, w, e);
    LoadsStep(warmup, w, e);
    OnceStep(warmup, w, e);
    WarmupsStep(warmup, w, e);
    GivenStep(warmup, w, e);
  }

  lemma {:induction false} InvRun(warmup: bool, w: World, es: seq<Event>)
    requires Inv(warmup, w) && Possible(warmup, w, es)
    ensures Inv(warmup, Run(warmup, w, es))
    decreases |es|
  {
    if es != [] {
      InvStep(warmup, w, es[0]);
      InvRun(warmup, Step(warmup, w, es[0]), es[1..]);
    }
  }

  lemma ReachableInv(warmup: bool, w: World)
    requires Reachable(warmup, w)
    ensures Inv(warmup, w)
  {
    var es :| Possible(warmup, START, es) && Run(warmup, START, es) == w;
    InvRun(warmup, START, es);
  }

  // ----- Main results -----

  /** In every run a name is loaded successfully at most once and warmed up at most once. */
  lemma OneLoadOneWarmup(warmup: bool, w: World)
    requires Reachable(warmup, w)
    ensures LoadedOnce(w.log) && WarmedOnce(w.log)
  {
    ReachableInv(warmup, w);
  }

  /** Every caller of a name gets the same instance, and it is the one the only load of that name made. */
  lemma SameInstance(warmup: bool, w: World, t: ThreadId, u: ThreadId, n: Name, m: Model, k: Model)
    requires Reachable(warmup, w) && Given(t, n, m) in w.log && Given(u, n, k) in w.log
    ensures m == k && Loaded(n, m) in w.log
  {
    ReachableInv(warmup, w);
  }

  lemma StepKeepsCache(warmup: bool, w: World, e: Event, n: Name)
    requires OneHolder(w) && LoadsPublished(w) && Enabled(w, e) && n in w.cache
    ensures Cached(Step(warmup, w, e), n, w.cache[n])
  {
    assert HoldsLock(At(w, e.t)) <==> w.holder == Some(e.t);
  }

  /** Nothing is ever removed from the cache or replaced in it. */
  lemma {:induction false} CacheOnlyGrows(warmup: bool, w: World, es: seq<Event>, n: Name)
    requires Inv(warmup, w) && Possible(warmup, w, es) && n in w.cache
    ensures Cached(Run(warmup, w, es), n, w.cache[n])
    decreases |es|
  {
    if es != [] {
      StepKeepsCache(warmup, w, es[0], n);
      InvStep(warmup, w, es[0]);
      CacheOnlyGrows(warmup, Step(warmup, w, es[0]), es[1..], n);
    }
  }

  /**
   A failed load leaves the cache and the other threads as they were and the lock free, and gives its
   caller nothing.
   */
  lemma FailedLoadLeavesNoTrace(warmup: bool, w: World, t: ThreadId)
    requires Reachable(warmup, w) && At(w, t).Loading?
    ensures var es := [LoadFails(t), Go(t)];
            var w' := Run(warmup, w, es);
            && Possible(warmup, w, es)
            && w'.cache == w.cache && w'.holder == None && At(w', t).Outside?
            && (forall u :: u != t ==> At(w', u) == At(w, u))
            && w'.log == w.log + [NotLoaded(At(w, t).name)]
  {
    var w1 := Step(warmup, w, LoadFails(t));
    var es := [LoadFails(t), Go(t)];
    assert es[1..] == [Go(t)] && es[1..][1..] == [];
    assert Run(warmup, w1, [Go(t)]) == Run(warmup, Step(warmup, w1, Go(t)), []);
    assert Possible(warmup, Step(warmup, w1, Go(t)), []);
    assert Possible(warmup, w1, [Go(t)]);
  }

  /**
   When the look without the lock hands a model out before its warm-up: exactly while the
   thread that loaded it is still warming it.
   */
  lemma EarlyHandoutExactly(warmup: bool, w: World, t: ThreadId)
    requires Reachable(warmup, w) && At(w, t).Looking? && At(w, t).name in w.cache
    ensures var n := At(w, t).name;
            var m := w.cache[n];
            && Given(t, n, m) in Step(warmup, w, Go(t)).log
            && (warmup ==> (Warmed(n, m) !in w.log <==> exists u :: At(w, u) == Warming(n, m)))
  {
    ReachableInv(warmup, w);
    var n, m := At(w, t).name, w.cache[At(w, t).name];
    if warmup && Warmed(n, m) !in w.log {
      assert At(w, w.holder.value) == Warming(n, m);
    }
    if u :| At(w, u) == Warming(n, m) {
      assert HoldsLock(At(w, u));
    }
  }

  /** A caller that went through the lock gets a model that has been warmed up. */
  lemma LockedCallersGetItWarm(w: World, t: ThreadId)
    requires Reachable(true, w) && At(w, t).Leaving?
    ensures Warmed(At(w, t).name, At(w, t).model) in w.log
    ensures Step(true, w, Go(t)).log == w.log + [Given(t, At(w, t).name, At(w, t).model)]
  {
    ReachableInv(true, w);
    assert HoldsLock(At(w, t));
  }

  lemma Unroll(warmup: bool, w: World, e: Event, es: seq<Event>)
    ensures Run(warmup, w, [e] + es) == Run(warmup, Step(warmup, w, e), es)
    ensures Possible(warmup, w, [e] + es) <==> Enabled(w, e) && Possible(warmup, Step(warmup, w, e), es)
  {
    assert ([e] + es)[1..] == es;
  }

  function UpToPublication(t: ThreadId, n: Name, m: Model, es: seq<Event>): seq<Event> {
    [Call(t, n)] + ([Go(t)] + ([Go(t)] + ([Go(t)] + ([LoadReturns(t, m)] + ([Go(t)] + es)))))
  }

  /** The first call for a name with the lock free: where it stands once the model is in the dict. */
  function Published(warmup: bool, w: World, t: ThreadId, n: Name, m: Model): World {
    World(w.cache[n := m], Some(t), w.threads[t := if warmup then Warming(n, m) else Leaving(n, m)], w.log + [Loaded(n, m)])
  }

  /** The first half of it: past the second look, about to load. */
  lemma UpToLoading(warmup: bool, w: World, t: ThreadId, n: Name, es: seq<Event>)
    requires w.holder == None && At(w, t).Outside? && n !in w.cache
    ensures var w' := Put(w, t, Loading(n)).(holder := Some(t));
            && Run(warmup, w, [Call(t, n)] + ([Go(t)] + ([Go(t)] + ([Go(t)] + es)))) == Run(warmup, w', es)
            && (Possible(warmup, w, [Call(t, n)] + ([Go(t)] + ([Go(t)] + ([Go(t)] + es)))) <==> Possible(warmup, w', es))
  {
    var w1 := Put(w, t, Looking(n));
    var w2 := Put(w1, t, Waiting(n));
    var w3 := Put(w2, t, Rechecking(n)).(holder := Some(t));
    Unroll(warmup, w, Call(t, n), [Go(t)] + ([Go(t)] + ([Go(t)] + es)));
    Unroll(warmup, w1, Go(t), [Go(t)] + ([Go(t)] + es));
    Unroll(warmup, w2, Go(t), [Go(t)] + es);
    Unroll(warmup, w3, Go(t), es);
    assert w.threads[t := Looking(n)][t := Waiting(n)][t := Rechecking(n)][t := Loading(n)] == w.threads[t := Loading(n)];
  }

  lemma FirstCall(warmup: bool, w: World, t: ThreadId, n: Name, m: Model, es: seq<Event>)
    requires w.holder == None && At(w, t).Outside? && n !in w.cache
    ensures Run(warmup, w, UpToPublication(t, n, m, es)) == Run(warmup, Published(warmup, w, t, n, m), es)
    ensures Possible(warmup, w, UpToPublication(t, n, m, es)) <==> Possible(warmup, Published(warmup, w, t, n, m), es)
  {
    var rest := [LoadReturns(t, m)] + ([Go(t)] + es);
    UpToLoading(warmup, w, t, n, rest);
    var w4 := Put(w, t, Loading(n)).(holder := Some(t));
    var w5 := Put(w4, t, Publishing(n, m)).(log := w.log + [Loaded(n, m)]);
    Unroll(warmup, w4, LoadReturns(t, m), [Go(t)] + es);
    Unroll(warmup, w5, Go(t), es);
    assert Step(warmup, w5, Go(t)) == Published(warmup, w, t, n, m);
  }

  /** A run in which the second caller holds the model before anybody has warmed it. */
  lemma EarlyHandoutHappens(n: Name, m: Model)
    ensures var es := UpToPublication(0, n, m, [Call(1, n), Go(1)]);
            && Possible(true, START, es)
            && Run(true, START, es).log == [Loaded(n, m), Given(1, n, m)]
  {
    FirstCall(true, START, 0, n, m, [Call(1, n), Go(1)]);
    var w := Published(true, START, 0, n, m);
    Two(true, w, Call(1, n), Go(1));
    assert Step(true, w, Call(1, n)) == Put(w, 1, Looking(n));
  }

  lemma Two(warmup: bool, w: World, d: Event, e: Event)
    ensures Run(warmup, w, [d, e]) == Step(warmup, Step(warmup, w, d), e)
    ensures Possible(warmup, w, [d, e]) <==> Enabled(w, d) && Enabled(Step(warmup, w, d), e)
  {
    assert [d, e] == [d] + ([e] + []);
    Unroll(warmup, w, d, [e] + []);
    Unroll(warmup, Step(warmup, w, d), e, []);
  }

  // ----- Progress -----

  /** The steps a thread still has to take before its call ends. */
  function StepsLeft(p: Phase): nat {
    match p
    case Outside => 0
    case Looking(_) => 7
    case Waiting(_) => 6
    case Rechecking(_) => 5
    case Loading(_) => 4
    case Publishing(_, _) => 3
    case Warming(_, _) => 2
    case Leaving(_, _) => 1
    case Failing(_) => 1
  }

  /** Every step of a call brings that call nearer to its end and moves no other thread. */
  lemma StepsRunOut(warmup: bool, w: World, e: Event)
    requires Enabled(w, e) && !e.Call?
    ensures StepsLeft(At(Step(warmup, w, e), e.t)) < StepsLeft(At(w, e.t))
    ensures forall u :: u != e.t ==> At(Step(warmup, w, e), u) == At(w, u)
  {
    var p := At(w, e.t);
    if p.Publishing? { assert At(Step(warmup, w, e), e.t).Warming? || At(Step(warmup, w, e), e.t).Leaving?; }
  }

  /** Whoever is in a call can take its next step, or waits for a thread that can. */
  lemma NobodyIsStuck(warmup: bool, w: World, t: ThreadId)
    requires Reachable(warmup, w) && !At(w, t).Outside?
    ensures exists e: Event :: Enabled(w, e) && !e.Call? && (e.t == t || (At(w, t).Waiting? && w.holder == Some(e.t)))
  {
    ReachableInv(warmup, w);
    Unstick(w, t);
  }

  lemma Unstick(w: World, t: ThreadId)
    requires OneHolder(w) && !At(w, t).Outside?
    ensures exists e: Event :: Enabled(w, e) && !e.Call? && (e.t == t || (At(w, t).Waiting? && w.holder == Some(e.t)))
  {
    var u := if At(w, t).Waiting? && w.holder.Some? then w.holder.value else t;
    assert HoldsLock(At(w, u)) <==> w.holder == Some(u);
    var e := if At(w, u).Loading? then LoadFails(u) else Go(u);
    assert Enabled(w, e) && e.t == u;
  }

  // ----- One call with nobody else about -----

  /** A first call alone, run to its end: what the sequential method below computes is what the machine does. */
  lemma LoadAlone(warmup: bool, w: World, t: ThreadId, n: Name, m: Model)
    requires w.holder == None && At(w, t).Outside? && n !in w.cache
    ensures var rest := if warmup then [Go(t)] + [Go(t)] else [Go(t)];
            var es := UpToPublication(t, n, m, rest);
            var w' := Run(warmup, w, es);
            && Possible(warmup, w, es)
            && w'.cache == w.cache[n := m] && w'.holder == None
            && w'.log == w.log + [Loaded(n, m)] + (if warmup then [Warmed(n, m)] else []) + [Given(t, n, m)]
  {
    var rest := if warmup then [Go(t)] + [Go(t)] else [Go(t)];
    FirstCall(warmup, w, t, n, m, rest);
    var p := Published(warmup, w, t, n, m);
    if warmup {
      assert [Go(t)] + [Go(t)] == [Go(t), Go(t)];
      Two(warmup, p, Go(t), Go(t));
    } else {
      assert [Go(t)] + [] == [Go(t)];
      Unroll(warmup, p, Go(t), []);
    }
  }

  class ModelManager {
    var models: map<Name, Model>
    const warmupEnabled: bool
    var warmed: seq<Name> // the warm-up inferences run, in order

    constructor (warmupEnabled: bool)
      ensures models == map[] && warmed == [] && this.warmupEnabled == warmupEnabled
    {
      models, warmed := map[], [];
      this.warmupEnabled := warmupEnabled;
    }

    function IsLoaded(name: Name): bool
      reads this
    {
      name in models
    }

    /** `loader` is what the loader would do if it were called for this name now. */
    method GetModel(name: Name, loader: Result<Model, LoadError>) returns (r: Result<Model, LoadError>)
      modifies this
      ensures r == (if old(IsLoaded(name)) then Ok(old(models)[name]) else loader)
      ensures models == (if r.Ok? then old(models)[name := r.value] else old(models))
      ensures warmed == if warmupEnabled && r.Ok? && !old(IsLoaded(name)) then old(warmed) + [name] else old(warmed)
    {
      if name in models {
        return Ok(models[name]);
      }
      // lock acquired: with nobody else about the second look finds what the first did
      match loader
      case Err(e) => r := Err(e);
      case Ok(model) =>
        models := models[name := model];
        if warmupEnabled {
          warmed := warmed + [name];
        }
        r := Ok(model);
    }
  }
}
