/**
 * Order messages and the check of an order against the job in progress
 * (rs_mcai_worker_sdk/src/message_exchange/message/order_message.rs).
 */
module Orders {
  import opened Wrappers
  import opened Jobs

  datatype OrderMessage =
    | JobOrder(job: Job)
    | InitProcess(job: Job)
    | StartProcess(job: Job)
    | StopProcess(job: Job)
    | StopWorker
    | Status
    | StopConsumingJobs
    | ResumeConsumingJobs

  const AlreadyInProgress: string := "Cannot initialize this job, an another job is already in progress."
  const StartNotInitialized: string := "Cannot start a not initialized job."
  const StartOtherJob: string := "The Job ID is not the same as the initialized job."
  const StopNotRunning: string := "Cannot stop a non-running job."
  const StopOtherJob: string := "The Job ID is not the same as the current job."

  /** `build_error`: a processing error carrying a fresh job result in error with the message. */
  function BuildError(job: Job, message: string, now: nat): (e: MessageError)
    ensures e.ProcessingError?
    ensures e.result.jobId == job.jobId && e.result.status == Error
    ensures Messages(e.result.parameters) == [message]
  {
    var jr := WithStatus(NewJobResult(job.jobId, now), Error, 0);
    MessagesAppend(jr, message);
    ProcessingError(WithMessage(jr, message))
  }

  /**
   * Which orders the worker may take given the job in progress: a new job
   * only when there is none, a start or stop only for that very job; the
   * other orders always.
   */
  predicate Admissible(order: OrderMessage, current: Option<nat>) {
    match order
    case JobOrder(_) => current.None?
    case InitProcess(_) => current.None?
    case StartProcess(job) => current == Some(job.jobId)
    case StopProcess(job) => current == Some(job.jobId)
    case _ => true
  }

  /** `matches_job_id`: the first failing check gives the error. */
  function MatchesJobId(order: OrderMessage, current: Option<nat>, now: nat): (r: Result<(), MessageError>)
    ensures r.Ok? <==> Admissible(order, current)
    ensures r.Err? ==> r.error == BuildError(order.job, RejectionMessage(order, current), now)
  {
    match order
    case JobOrder(job) => if current.Some? then Err(BuildError(job, AlreadyInProgress, now)) else Ok(())
    case InitProcess(job) => if current.Some? then Err(BuildError(job, AlreadyInProgress, now)) else Ok(())
    case StartProcess(job) =>
      if current.None? then Err(BuildError(job, StartNotInitialized, now))
      else if current != Some(job.jobId) then Err(BuildError(job, StartOtherJob, now))
      else Ok(())
    case StopProcess(job) =>
      if current.None? then Err(BuildError(job, StopNotRunning, now))
      else if current != Some(job.jobId) then Err(BuildError(job, StopOtherJob, now))
      else Ok(())
    case _ => Ok(())
  }

  /** The message of a rejection: no job yet, or a different one. */
  function RejectionMessage(order: OrderMessage, current: Option<nat>): string
    requires order.JobOrder? || order.InitProcess? || order.StartProcess? || order.StopProcess?
  {
    match order
    case StartProcess(_) => if current.None? then StartNotInitialized else StartOtherJob
    case StopProcess(_) => if current.None? then StopNotRunning else StopOtherJob
    case _ => AlreadyInProgress
  }

  /** A rejection reports the order's own job id, in error, with exactly one message. */
  lemma RejectionCarriesJob(order: OrderMessage, current: Option<nat>, now: nat)
    requires MatchesJobId(order, current, now).Err?
    ensures var e := MatchesJobId(order, current, now).error;
            && e.ProcessingError? && e.result.jobId == order.job.jobId && e.result.status == Error
            && |Messages(e.result.parameters)| == 1
  {
  }

  /** Once a job is in progress, only its own start and stop orders (and the job-less orders) pass. */
  lemma OnlyCurrentJobPasses(order: OrderMessage, id: nat, now: nat)
    requires order.JobOrder? || order.InitProcess? || order.StartProcess? || order.StopProcess?
    ensures MatchesJobId(order, Some(id), now).Ok? <==> (order.StartProcess? || order.StopProcess?) && order.job.jobId == id
  {
  }

  /**
   * `TryFrom<&str> for OrderMessage`: an order message if the text is one,
   * otherwise a bare job (as `Job::new` reads it), otherwise the order
   * parser's error.
   */
  function TryFrom(text: string, parseOrder: string -> Result<OrderMessage, string>, parseJob: string -> Option<Job>): (r: Result<OrderMessage, MessageError>)
    ensures parseOrder(text).Ok? ==> r == Ok(parseOrder(text).value)
    ensures parseOrder(text).Err? && parseJob(text).Some? ==> r == Ok(JobOrder(parseJob(text).value))
    ensures parseOrder(text).Err? && parseJob(text).None? ==> r == Err(RuntimeError(parseOrder(text).error))
  {
    match parseOrder(text)
    case Ok(order) => Ok(order)
    case Err(error) =>
      match parseJob(text)
      case Some(job) => Ok(JobOrder(job))
      case None => Err(RuntimeError(error))
  }

  /** A bare job text is an order to run that job, taken only when the worker is free. */
  lemma BareJobOrder(text: string, parseOrder: string -> Result<OrderMessage, string>, parseJob: string -> Option<Job>, current: Option<nat>, now: nat)
    requires parseOrder(text).Err? && parseJob(text).Some?
    ensures TryFrom(text, parseOrder, parseJob).Ok?
    ensures MatchesJobId(TryFrom(text, parseOrder, parseJob).value, current, now).Ok? <==> current.None?
  {
  }
}
