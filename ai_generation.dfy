/**
 * The status-update record both job services send when a job changes status: the status
 * always, the result URL and error message only when given as non-empty text, and a completion
 * stamp exactly for the two terminal statuses.
 */
module JobStatus {
  import opened Wrappers

  /** `now` stands for `new Date().toISOString()` at the time of the call. */
  function StatusUpdate(status: string, resultUrl: Option<string>, errorMessage: Option<string>, now: string)
    : (u: map<string, string>)
    ensures "status" in u && u["status"] == status
    ensures "result_url" in u <==> resultUrl.Some? && resultUrl.value != ""
    ensures "result_url" in u ==> u["result_url"] == resultUrl.value
    ensures "error_message" in u <==> errorMessage.Some? && errorMessage.value != ""
    ensures "error_message" in u ==> u["error_message"] == errorMessage.value
    ensures "completed_at" in u <==> status == "completed" || status == "failed"
    ensures "completed_at" in u ==> u["completed_at"] == now
    ensures u.Keys <= {"status", "result_url", "error_message", "completed_at"}
  {
    map["status" := status]
      + (if resultUrl.Some? && resultUrl.value != "" then map["result_url" := resultUrl.value] else map[])
      + (if errorMessage.Some? && errorMessage.value != "" then map["error_message" := errorMessage.value] else map[])
      + (if status == "completed" || status == "failed" then map["completed_at" := now] else map[])
  }

  /** A job reported as still running gets a one-field update, whatever else is passed as empty. */
  lemma RunningStatusOnly(status: string, now: string)
    requires status != "completed" && status != "failed"
    ensures StatusUpdate(status, None, Some(""), now) == map["status" := status]
  {
    var u := StatusUpdate(status, None, Some(""), now);
    assert u.Keys == {"status"};
  }
}

/**
 * The AI generation job service: creating a job row, listing and reading jobs, status updates
 * and deletion. Auth and the database are the storage collaborator: the signed-in user is a
 * parameter (`None` when signed out) and every reply is a parameter.
 */
module AiGeneration {
  import opened Wrappers
  import opened Records
  import opened Storage
  import JobStatus

  const JobNotFound: string := "Job not found"
  /** `getUserJobs` lists at most this many jobs unless told otherwise. */
  const DefaultListLimit: int := 50

  /** What a caller asks for; `parameters` and `projectId` may be omitted. */
  datatype GenerateParams = GenerateParams(
    provider: string,
    jobType: string,
    prompt: string,
    sourceImageUrl: Option<string>,
    parameters: Option<Bag>,
    projectId: Option<string>)

  /** The row inserted into `ai_generation_jobs`. */
  datatype JobInsert = JobInsert(
    userId: string,
    provider: string,
    jobType: string,
    prompt: string,
    sourceImageUrl: Option<string>,
    parameters: Bag,
    projectId: Option<string>,
    status: string)

  /** The storage requests this service issues. */
  datatype Request =
    | InsertJob(row: JobInsert)
    | SelectUserJobs(userId: string, newestFirst: bool, limit: int)
    | SelectJob(jobId: string)
    | UpdateJob(jobId: string, update: map<string, string>)
    | RemoveJob(jobId: string)

  /** A new job belongs to the signed-in user, starts pending, and has an empty parameter object
      when none is given; every other field is the caller's. */
  function NewJob(userId: string, params: GenerateParams): (r: JobInsert)
    ensures r.status == "pending"
    ensures r.userId == userId
    ensures params.parameters.None? ==> r.parameters == map[]
    ensures params.parameters.Some? ==> r.parameters == params.parameters.value
    ensures r.provider == params.provider && r.jobType == params.jobType && r.prompt == params.prompt
    ensures r.sourceImageUrl == params.sourceImageUrl && r.projectId == params.projectId
  {
    JobInsert(userId, params.provider, params.jobType, params.prompt, params.sourceImageUrl,
      if params.parameters.Some? then params.parameters.value else map[],
      params.projectId, "pending")
  }

  /** `createGenerationJob`: refused before any table access when nobody is signed in. */
  function CreateGenerationJob(user: Option<string>, params: GenerateParams, reply: Result<AIJob>)
    : (o: Outcome<Request, AIJob>)
    ensures user.None? ==> o.requests == [] && o.result == Err(NotAuthenticated)
    ensures user.Some? ==> o.requests == [InsertJob(NewJob(user.value, params))] && o.result == reply
  {
    match user
    case None => Outcome([], Err(NotAuthenticated))
    case Some(id) => Outcome([InsertJob(NewJob(id, params))], reply)
  }

  /** `getUserJobs(limit = 50)`: the user's jobs, newest first, at most `limit` of them. */
  function GetUserJobs(user: Option<string>, limit: int := DefaultListLimit, reply: Result<seq<AIJob>>)
    : (o: Outcome<Request, seq<AIJob>>)
    ensures user.None? ==> o.requests == [] && o.result == Err(NotAuthenticated)
    ensures user.Some? ==> o.requests == [SelectUserJobs(user.value, true, limit)] && o.result == reply
  {
    match user
    case None => Outcome([], Err(NotAuthenticated))
    case Some(id) => Outcome([SelectUserJobs(id, true, limit)], reply)
  }

  /** `getJobById`, which `pollJobStatus` calls unchanged: a missing row is an error. */
  function GetJobById(jobId: string, reply: Result<Option<AIJob>>): (o: Outcome<Request, AIJob>)
    ensures o.requests == [SelectJob(jobId)]
    ensures reply == Ok(None) ==> o.result == Err(JobNotFound)
    ensures reply.Err? ==> o.result == Err(reply.message)
    ensures o.result.Ok? <==> reply.Ok? && reply.value.Some?
    ensures o.result.Ok? ==> o.result.value == reply.value.value
  {
    Outcome([SelectJob(jobId)], FoundOr(reply, JobNotFound))
  }

  /** Without a limit argument at most 50 jobs are asked for. */
  lemma DefaultJobLimit(user: string, reply: Result<seq<AIJob>>)
    ensures GetUserJobs(Some(user), reply := reply).requests == [SelectUserJobs(user, true, 50)]
  {
  }

  /** `updateJobStatus`: one update of that job's row with the status record. */
  function UpdateJobStatus(jobId: string, status: string, resultUrl: Option<string>, errorMessage: Option<string>,
                           now: string, reply: Result<()>): (o: Outcome<Request, ()>)
    ensures |o.requests| == 1 && o.requests[0].UpdateJob? && o.requests[0].jobId == jobId
    ensures "status" in o.requests[0].update && o.requests[0].update["status"] == status
    ensures "completed_at" in o.requests[0].update <==> status == "completed" || status == "failed"
    ensures o.requests[0].update == JobStatus.StatusUpdate(status, resultUrl, errorMessage, now)
    ensures o.result == reply
  {
    Outcome([UpdateJob(jobId, JobStatus.StatusUpdate(status, resultUrl, errorMessage, now))], reply)
  }

  function DeleteJob(jobId: string, reply: Result<()>): (o: Outcome<Request, ()>)
    ensures o.requests == [RemoveJob(jobId)] && o.result == reply
  {
    Outcome([RemoveJob(jobId)], reply)
  }
}
