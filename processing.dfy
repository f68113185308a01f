/**
 * The processing job service (lipsync, upscaling and similar post-processing requests): the
 * inserted row, listing and reading, progress and status updates, deletion. As for the other
 * services, the signed-in user and every storage reply are parameters.
 */
module Processing {
  import opened Wrappers
  import opened Records
  import opened Storage
  import JobStatus

  const JobNotFound: string := "Job not found"
  /** `getUserJobs` lists at most this many jobs unless told otherwise. */
  const DefaultListLimit: int := 50

  /** A row of `processing_jobs`, as far as the service looks at it. */
  datatype ProcessingJob = ProcessingJob(
    id: string,
    userId: string,
    jobType: string,
    status: string,
    progress: real,
    resultUrl: Option<string>,
    errorMessage: Option<string>)

  /** The storage requests this service issues; the inserted row is the JSON object sent. */
  datatype Request =
    | InsertJob(row: Bag)
    | SelectUserJobs(userId: string, newestFirst: bool, limit: int)
    | SelectJob(jobId: string)
    | UpdateJob(jobId: string, update: Bag)
    | RemoveJob(jobId: string)

  /**
   * `{ user_id, ...params, status: 'pending', progress: 0 }`: the caller's fields are spread
   * over the user id, and the pending status and zero progress are written last, so nothing
   * the caller passes can change them.
   */
  function NewJobRow(userId: string, params: Bag): (r: Bag)
    ensures "status" in r && r["status"] == Text("pending")
    ensures "progress" in r && r["progress"] == Num(0.0)
    ensures "user_id" in r && r["user_id"] == if "user_id" in params then params["user_id"] else Text(userId)
    ensures r.Keys == params.Keys + {"user_id", "status", "progress"}
    ensures forall k :: k in params && k != "status" && k != "progress" ==> r[k] == params[k]
  {
    map["user_id" := Text(userId)] + params + map["status" := Text("pending"), "progress" := Num(0.0)]
  }

  function CreateProcessingJob(user: Option<string>, params: Bag, reply: Result<ProcessingJob>)
    : (o: Outcome<Request, ProcessingJob>)
    ensures user.None? ==> o.requests == [] && o.result == Err(NotAuthenticated)
    ensures user.Some? ==> o.requests == [InsertJob(NewJobRow(user.value, params))] && o.result == reply
  {
    match user
    case None => Outcome([], Err(NotAuthenticated))
    case Some(id) => Outcome([InsertJob(NewJobRow(id, params))], reply)
  }

  /** `getUserJobs(limit = 50)`: the user's jobs, newest first, at most `limit` of them. */
  function GetUserJobs(user: Option<string>, limit: int := DefaultListLimit, reply: Result<seq<ProcessingJob>>)
    : (o: Outcome<Request, seq<ProcessingJob>>)
    ensures user.None? ==> o.requests == [] && o.result == Err(NotAuthenticated)
    ensures user.Some? ==> o.requests == [SelectUserJobs(user.value, true, limit)] && o.result == reply
  {
    match user
    case None => Outcome([], Err(NotAuthenticated))
    case Some(id) => Outcome([SelectUserJobs(id, true, limit)], reply)
  }

  function GetJobById(jobId: string, reply: Result<Option<ProcessingJob>>): (o: Outcome<Request, ProcessingJob>)
    ensures o.requests == [SelectJob(jobId)]
    ensures reply == Ok(None) ==> o.result == Err(JobNotFound)
    ensures reply.Err? ==> o.result == Err(reply.message)
    ensures o.result.Ok? <==> reply.Ok? && reply.value.Some?
    ensures o.result.Ok? ==> o.result.value == reply.value.value
  {
    Outcome([SelectJob(jobId)], FoundOr(reply, JobNotFound))
  }

  /** Without a limit argument at most 50 jobs are asked for. */
  lemma DefaultJobLimit(user: string, reply: Result<seq<ProcessingJob>>)
    ensures GetUserJobs(Some(user), reply := reply).requests == [SelectUserJobs(user, true, 50)]
  {
  }

  /** `updateJobProgress` writes the progress and nothing else. */
  function UpdateJobProgress(jobId: string, progress: real, reply: Result<()>): (o: Outcome<Request, ()>)
    ensures |o.requests| == 1 && o.requests[0].UpdateJob? && o.requests[0].jobId == jobId
    ensures o.requests[0].update.Keys == {"progress"} && o.requests[0].update["progress"] == Num(progress)
    ensures o.result == reply
  {
    Outcome([UpdateJob(jobId, map["progress" := Num(progress)])], reply)
  }

  /** The status record as a JSON object. */
  function AsBag(u: map<string, string>): (b: Bag)
    ensures b.Keys == u.Keys
    ensures forall k :: k in u ==> b[k] == Text(u[k])
  {
    map k | k in u :: Text(u[k])
  }

  /** `updateJobStatus` sends the same status record as the generation service does. */
  function UpdateJobStatus(jobId: string, status: string, resultUrl: Option<string>, errorMessage: Option<string>,
                           now: string, reply: Result<()>): (o: Outcome<Request, ()>)
    ensures |o.requests| == 1 && o.requests[0].UpdateJob? && o.requests[0].jobId == jobId
    ensures o.requests[0].update == AsBag(JobStatus.StatusUpdate(status, resultUrl, errorMessage, now))
    ensures "status" in o.requests[0].update && o.requests[0].update["status"] == Text(status)
    ensures "progress" !in o.requests[0].update
    ensures o.result == reply
  {
    Outcome([UpdateJob(jobId, AsBag(JobStatus.StatusUpdate(status, resultUrl, errorMessage, now)))], reply)
  }

  function DeleteJob(jobId: string, reply: Result<()>): (o: Outcome<Request, ()>)
    ensures o.requests == [RemoveJob(jobId)] && o.result == reply
  {
    Outcome([RemoveJob(jobId)], reply)
  }
}
