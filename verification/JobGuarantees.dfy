/**
 What holds of every run of the command-level protocol: a job that was pushed is never lost,
 except by a stop inside a handoff between two containers; a dequeued id always has its record;
 and once a job has completed, both collections hold exactly the records of one fault-free run.
 */
module JobGuarantees {
  import opened Jobs
  import opened Uploads
  import opened CommandSteps

  /** No event of the run stops an actor inside a handoff. */
  ghost predicate NoHandoffStop(c: Config, s: State, es: seq<Event>)
    decreases es
  {
    es == [] || ((es[0].Crash? ==> HeldBy(At(s, es[0].a)) == {}) && NoHandoffStop(c, Next(c, s, es[0]), es[1..]))
  }

  lemma {:induction false} NothingDropped(c: Config, s: State, es: seq<Event>)
    requires Valid(c, s, es) && NoHandoffStop(c, s, es) && s.dropped == {}
    ensures Run(c, s, es).dropped == {}
    decreases es
  {
    if es != [] {
      DroppedStep(c, s, es[0]);
      NothingDropped(c, Next(c, s, es[0]), es[1..]);
    }
  }

  lemma DroppedStep(c: Config, s: State, e: Event)
    ensures Next(c, s, e).dropped == if e.Crash? then s.dropped + HeldBy(At(s, e.a)) else s.dropped
  {
  }

  /** In every interleaving, with stops anywhere but inside a handoff, every job ever pushed is accounted for. */
  lemma NoJobLost(c: Config, store: Store, es: seq<Event>)
    requires Valid(c, Initial(store), es) && NoHandoffStop(c, Initial(store), es)
    ensures var s := Run(c, Initial(store), es); forall id | id in s.pushed :: Accounted(s, id)
  {
    InvInitial(c, store);
    InvRun(c, store, Initial(store), es);
    NothingDropped(c, Initial(store), es);
  }

  /** An id taken from pending always has its record, in every run, and that record is the work it was issued with. */
  lemma DequeueFindsRecord(c: Config, store: Store, es: seq<Event>, a: ActorId)
    requires Valid(c, Initial(store), es) && At(Run(c, Initial(store), es), a).Fetching?
    ensures var s := Run(c, Initial(store), es); var id := At(s, a).id;
            id in s.redis.jobs && id in s.issued && s.redis.jobs[id].SameWork(s.issued[id])
  {
    var s := Run(c, Initial(store), es);
    InvInitial(c, store);
    InvRun(c, store, Initial(store), es);
    assert ActorKnown(s.redis.jobs, At(s, a));
  }

  /**
   Once a job has completed, both collections hold exactly its fault-free records -- in every mode,
   after any stops, retries and simultaneous holders.
   */
  lemma CompletedJobsConverge(c: Config, store: Store, es: seq<Event>, id: JobId)
    requires Valid(c, Initial(store), es) && id in Run(c, Initial(store), es).completed
    ensures var s := Run(c, Initial(store), es);
            id in s.issued && Converged(c.svc, s.issued[id].payload, s.issued[id].productId, s.store)
  {
    InvInitial(c, store);
    InvRun(c, store, Initial(store), es);
  }

  /**
   At any time in any run a product of an issued job has no record or its fault-free ones, and no other
   product's record has changed.
   */
  lemma OtherProductsUntouched(c: Config, store: Store, es: seq<Event>, p: ProductId)
    requires Valid(c, Initial(store), es)
    ensures var s := Run(c, Initial(store), es);
            if exists id :: id in s.issued && s.issued[id].productId == p
            then exists id :: id in s.issued && s.issued[id].productId == p && Clean(c.svc, s.issued[id].payload, p, s.store)
            else Untouched(store, s, p)
  {
    InvInitial(c, store);
    InvRun(c, store, Initial(store), es);
  }
}
