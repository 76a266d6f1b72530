/**
 The background-job record (backend/app/jobs) and what it carries. Timestamps and
 durations are not part of the record here: nothing the protocol decides reads them.
 */
module Jobs {
  import opened Wrappers

  type JobId = nat
  type ProductId = nat

  datatype ProductCreate = ProductCreate(name: string, brand: Option<string>, category: Option<string>,
                                         description: Option<string>, price: Option<real>)

  datatype ProductImage = ProductImage(storedFilename: string, originalFilename: string)

  datatype Payload = Payload(product: ProductCreate, image: ProductImage)

  datatype JobStatus = PENDING | RUNNING | COMPLETED | FAILED | RETRYING

  /** What one execution attempt produced. */
  datatype JobResult = JobResult(attempt: nat, success: bool, error: Option<string>)

  datatype Job = Job(id: JobId, productId: ProductId, payload: Payload, status: JobStatus,
                     retryCount: nat, maxRetries: nat, progress: nat, stage: string,
                     error: Option<string>, history: seq<JobResult>)
  {
    /** Same identity and same work: what no step of the protocol may change. */
    ghost predicate SameWork(other: Job) {
      id == other.id && productId == other.productId && payload == other.payload && maxRetries == other.maxRetries
    }
  }

  /** A job as the API creates it. */
  predicate Fresh(j: Job) {
    j.status == PENDING && j.retryCount == 0 && j.history == []
  }

  // ----- The in-memory changes one attempt makes (backend/app/workers/product_worker.py) -----

  const VALIDATING := "Validating Upload"
  const PROCESSING := "Processing Upload"
  const CACHING := "Generating Recommendations"
  const FINISHED := "Completed"

  function Started(j: Job): Job {
    j.(status := RUNNING)
  }

  function Reported(j: Job, progress: nat, stage: string): Job {
    j.(progress := progress, stage := stage)
  }

  function CompletedAttempt(j: Job): Job {
    j.(status := COMPLETED, progress := 100, stage := FINISHED, error := None,
       history := j.history + [JobResult(j.retryCount + 1, true, None)])
  }

  function FailedAttempt(j: Job, error: string): Job {
    j.(history := j.history + [JobResult(j.retryCount + 1, false, Some(error))])
  }
}
