/**
 * The `/api/jobs` endpoint: `POST` validates a submission, inserts it as a `PENDING` job and
 * starts its processing in the background; `GET` lists the jobs, newest first, optionally
 * narrowed to one status.
 */
module JobsRoute {
  import opened Wrappers
  import opened Text
  import opened JobModel
  import opened JobStore

  /**
   * The parsed request body `{ type, input }`. An absent `input` stands for any falsy JSON
   * value there (`null`, `false`, `0`, `""`, or no property at all).
   */
  datatype Submission = Submission(jobType: Option<string>, input: Option<Input>)

  datatype Response =
    /** 200 with the listed jobs. */
    | JobList(jobs: seq<Job>)
    /** 200 with `{ jobId, status, createdAt }` of the inserted job. */
    | Accepted(jobId: JobId, status: string, createdAt: Time)
    /** An error status with `{ error }`. */
    | ErrorReply(code: int, message: string)

  /** The status code the response is sent with. */
  function StatusCode(r: Response): (code: int)
    ensures r.ErrorReply? ==> code == r.code
    ensures !r.ErrorReply? ==> code == 200
  {
    if r.ErrorReply? then r.code else 200
  }

  const MissingFields := "type and input are required"
  const CreateFailed := "Failed to create job"
  const FetchFailed := "Failed to fetch jobs"

  /** A submission that names a type and carries an input. */
  predicate Complete(s: Submission) {
    Truthy(s.jobType) && s.input.Some?
  }

  /**
   * `POST`. `body` is `None` when the request is not JSON; `newId` and `createdAt` are what the
   * database assigns, `now` the `updatedAt` sent, and `fault` a database error. `spawned` is the
   * job whose `processJobAsync` is started without being awaited: the response never depends on it.
   */
  method Post(store: Store, body: Option<Submission>, newId: JobId, createdAt: Time, now: Time, fault: bool)
    returns (r: Response, spawned: Option<JobId>)
    requires store.Valid()
    modifies store
    ensures store.Valid()
    ensures body.None? ==> r == ErrorReply(500, CreateFailed)
    ensures body.Some? && !Complete(body.value) ==> r == ErrorReply(400, MissingFields)
    ensures body.Some? && Complete(body.value) && (fault || newId in old(store.jobs)) ==> r == ErrorReply(500, CreateFailed)
    ensures r.Accepted? <==> body.Some? && Complete(body.value) && !fault && newId !in old(store.jobs)
    ensures r.Accepted? ==>
              && r == Accepted(newId, StatusName(Pending), createdAt)
              && store.jobs == old(store.jobs)[newId := Job(newId, body.value.jobType.value, Pending,
                                                            body.value.input.value, None, None, 0,
                                                            store.defaultMaxRetries, createdAt, now, None, None)]
    ensures !r.Accepted? ==> store.jobs == old(store.jobs)
    ensures spawned.Some? <==> r.Accepted?
    ensures spawned.Some? ==> spawned.value == newId
  {
    spawned := None;
    if body.None? {
      return ErrorReply(500, CreateFailed), None;
    }
    var s := body.value;
    if !Truthy(s.jobType) || s.input.None? {
      return ErrorReply(400, MissingFields), None;
    }
    var inserted := store.Insert(NewJob(s.jobType.value, Pending, s.input.value, now), newId, createdAt, fault);
    if inserted.Failure? {
      return ErrorReply(500, CreateFailed), None;
    }
    var job := inserted.value;
    spawned := Some(job.id);
    r := Accepted(job.id, StatusName(job.status), job.createdAt);
  }

  /** The status filter `GET` applies: only a non-empty `status` parameter narrows the listing. */
  function StatusFilter(statusParam: Option<string>): (f: Option<string>)
    ensures f.Some? <==> Truthy(statusParam)
    ensures f.Some? ==> f == statusParam
  {
    if Truthy(statusParam) then statusParam else None
  }

  /**
   * `GET`. The query is built unfiltered and narrowed when a status is given; `fault` is a
   * database error.
   */
  method Get(store: Store, statusParam: Option<string>, fault: bool) returns (r: Response)
    requires store.Valid()
    ensures r.ErrorReply? <==> fault
    ensures r.ErrorReply? ==> r == ErrorReply(500, FetchFailed)
    ensures !r.ErrorReply? ==> r.JobList?
    ensures r.JobList? ==> forall j :: j in r.jobs <==> j in store.jobs.Values && Matches(j, StatusFilter(statusParam))
    ensures r.JobList? ==> NewestFirst(r.jobs) && DistinctIds(r.jobs)
  {
    var filter: Option<string> := None;
    if Truthy(statusParam) {
      filter := statusParam;
    }
    var data := store.Query(filter, fault);
    if data.Failure? {
      return ErrorReply(500, FetchFailed);
    }
    r := JobList(data.value);
  }

  /**
   * With a status, exactly the jobs stored with that status are listed; without one, or with
   * an empty one, every job is.
   */
  lemma ListingFilter(t: Table, statusParam: Option<string>, j: Job)
    ensures Truthy(statusParam) ==> (Matches(j, StatusFilter(statusParam)) <==> StatusName(j.status) == statusParam.value)
    ensures !Truthy(statusParam) ==> Matches(j, StatusFilter(statusParam))
  {
  }

  /** Listing `PROCESSING` (as the restore hook does) lists exactly the jobs in that state. */
  lemma ProcessingListing(j: Job)
    ensures Matches(j, StatusFilter(Some("PROCESSING"))) <==> j.status == Processing
  {
    assert StatusName(Processing) == "PROCESSING";
    StatusNameInjective(j.status, Processing);
  }
}
