/**
 * The result a worker reports for a job, its builders, and the SDK's error
 * type (rs_mcai_worker_sdk/src/job/job_result.rs, job_status.rs,
 * rs_mcai_worker_sdk/src/error.rs). Clock readings are passed in as numbers.
 */
module Jobs {
  import opened Wrappers
  import opened Json
  import opened Parameters

  datatype JobStatus = Unknown | Initialized | Running | Completed | Error

  /** A job order: its identifier (`u64`) and its parameters. */
  datatype Job = Job(jobId: nat, parameters: seq<Parameter>)

  /** `JobResult`; `executionDuration` and `startInstant` are clock readings. */
  datatype JobResult = JobResult(
    destinationPaths: seq<string>,
    executionDuration: nat,
    jobId: nat,
    parameters: seq<Parameter>,
    startInstant: nat,
    status: JobStatus)

  datatype MessageError =
    | RuntimeError(text: string)
    | ParameterValueError(text: string)
    | ProcessingError(result: JobResult)
    | RequirementsError(text: string)
    | NotImplemented

  /** `JobResult::new(job_id)`, created at clock reading `now`. */
  function NewJobResult(jobId: nat, now: nat): (r: JobResult)
    ensures r.jobId == jobId && r.status == Unknown
    ensures r.parameters == [] && r.destinationPaths == []
    ensures r.executionDuration == 0 && r.startInstant == now
  {
    JobResult([], 0, jobId, [], now, Unknown)
  }

  /** `with_status`: records the elapsed time and the status, nothing else. */
  function WithStatus(jr: JobResult, status: JobStatus, elapsed: nat): (r: JobResult)
    ensures r.status == status && r.executionDuration == elapsed
    ensures r.jobId == jr.jobId && r.parameters == jr.parameters
    ensures r.destinationPaths == jr.destinationPaths && r.startInstant == jr.startInstant
  {
    jr.(status := status, executionDuration := elapsed)
  }

  /** The parameter `with_message` pushes: a `string` parameter named "message". */
  function MessageParameter(message: string): (p: Parameter)
    ensures p.id == "message" && p.kind == "string"
    ensures p.store.None? && p.default.None? && p.value == Some(JString(message))
  {
    Parameter("message", "string", None, Some(JString(message)), None)
  }

  /** `with_message`: appends exactly one message parameter. */
  function WithMessage(jr: JobResult, message: string): (r: JobResult)
    ensures |r.parameters| == |jr.parameters| + 1
    ensures r.parameters[..|jr.parameters|] == jr.parameters
    ensures r.parameters[|jr.parameters|] == MessageParameter(message)
    ensures r.(parameters := jr.parameters) == jr
  {
    jr.(parameters := jr.parameters + [MessageParameter(message)])
  }

  /** `with_parameters`: appends the given parameters in order. */
  function WithParameters(jr: JobResult, parameters: seq<Parameter>): (r: JobResult)
    ensures |r.parameters| == |jr.parameters| + |parameters|
    ensures r.parameters[..|jr.parameters|] == jr.parameters
    ensures r.parameters[|jr.parameters|..] == parameters
    ensures r.(parameters := jr.parameters) == jr
  {
    jr.(parameters := jr.parameters + parameters)
  }

  /** `with_destination_paths`: appends the given paths in order. */
  function WithDestinationPaths(jr: JobResult, paths: seq<string>): (r: JobResult)
    ensures |r.destinationPaths| == |jr.destinationPaths| + |paths|
    ensures r.destinationPaths[..|jr.destinationPaths|] == jr.destinationPaths
    ensures r.destinationPaths[|jr.destinationPaths|..] == paths
    ensures r.(destinationPaths := jr.destinationPaths) == jr
  {
    jr.(destinationPaths := jr.destinationPaths + paths)
  }

  /**
   * `with_json(id, value)`, given the outcome of serializing `value`: its
   * text becomes a `string` parameter named `id`.
   */
  function WithJson(jr: JobResult, id: string, serialized: Result<string, string>): (r: Result<JobResult, string>)
    ensures serialized.Err? ==> r == Err("Unable to serialize object: " + serialized.error)
    ensures serialized.Ok? ==> r.Ok? && r.value.parameters == jr.parameters + [Parameter(id, "string", None, Some(JString(serialized.value)), None)]
    ensures r.Ok? ==> r.value.(parameters := jr.parameters) == jr
  {
    match serialized
    case Err(e) => Err("Unable to serialize object: " + e)
    case Ok(text) => Ok(jr.(parameters := jr.parameters + [Parameter(id, "string", None, Some(JString(text)), None)]))
  }

  /** `From<Job>`: the job's identifier, none of its parameters. */
  function FromJob(job: Job, now: nat): (r: JobResult)
    ensures r.jobId == job.jobId && r.parameters == [] && r.status == Unknown
  {
    NewJobResult(job.jobId, now)
  }

  /** `PartialEq`: the duration and the start instant are not compared. */
  predicate Same(a: JobResult, b: JobResult) {
    && a.jobId == b.jobId
    && a.status == b.status
    && a.parameters == b.parameters
    && a.destinationPaths == b.destinationPaths
  }

  /** The texts of all message parameters, in order. */
  function Messages(ps: seq<Parameter>): seq<string>
    decreases |ps|
  {
    if |ps| == 0 then []
    else
      var init := Messages(ps[..|ps| - 1]);
      var p := ps[|ps| - 1];
      if p.id == "message" && p.value.Some? && p.value.value.JString? then init + [p.value.value.s] else init
  }

  /** Each `with_message` adds its text after the earlier messages. */
  lemma MessagesAppend(jr: JobResult, message: string)
    ensures Messages(WithMessage(jr, message).parameters) == Messages(jr.parameters) + [message]
  {
    var ps := WithMessage(jr, message).parameters;
    assert ps[..|ps| - 1] == jr.parameters;
  }

  /** Results built at different times from the same steps are equal. */
  lemma SameIgnoresClock(jobId: nat, t1: nat, t2: nat, status: JobStatus, e1: nat, e2: nat, message: string)
    ensures Same(WithMessage(WithStatus(NewJobResult(jobId, t1), status, e1), message),
                 WithMessage(WithStatus(NewJobResult(jobId, t2), status, e2), message))
  {
  }

  /** Two results built from one job are equal whatever their parameters. */
  lemma FromJobDropsParameters(a: Job, b: Job, t1: nat, t2: nat)
    requires a.jobId == b.jobId
    ensures Same(FromJob(a, t1), FromJob(b, t2))
  {
  }
}
