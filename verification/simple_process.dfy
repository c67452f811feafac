/**
 * The single-threaded processor: how it answers each forwarded order and
 * which status it keeps (rs_mcai_worker_sdk/src/processor/simple_process.rs).
 * The worker's own processing is a function of the job; clock readings are
 * numbers.
 */
module SimpleProcessing {
  import opened Wrappers
  import opened Jobs
  import opened Orders

  datatype WorkerActivity = Idle | Busy

  datatype Feedback =
    | Progression(jobId: nat, progress: nat)
    | StatusFeedback(activity: WorkerActivity, lastJobResult: Option<JobResult>)

  datatype ResponseMessage =
    | InitializedResponse(result: JobResult)
    | CompletedResponse(result: JobResult)
    | ErrorResponse(error: MessageError)
    | FeedbackResponse(feedback: Feedback)

  datatype SimpleProcess = SimpleProcess(status: JobStatus, lastJobId: Option<nat>)

  /** `SimpleProcess::new`. */
  const NewProcess: SimpleProcess := SimpleProcess(Unknown, None)

  /** The orders `handle` has an arm for; the consumer keeps the others to itself. */
  predicate Handled(order: OrderMessage) {
    !order.StopConsumingJobs? && !order.ResumeConsumingJobs?
  }

  /** An order `handle` can be given. */
  type HandledOrder = order: OrderMessage | Handled(order) witness Status

  /** `get_worker_activity`. */
  function GetWorkerActivity(p: SimpleProcess): (a: WorkerActivity)
    ensures a == Busy <==> p.status == Initialized || p.status == Running
  {
    match p.status
    case Initialized => Busy
    case Running => Busy
    case _ => Idle
  }

  /** `get_last_job_result`: a fresh result for the last stopped job, with the current status. */
  function GetLastJobResult(p: SimpleProcess, now: nat, elapsed: nat): (r: Option<JobResult>)
    ensures r.Some? <==> p.lastJobId.Some?
    ensures r.Some? ==> r.value.jobId == p.lastJobId.value && r.value.status == p.status
    ensures r.Some? ==> r.value.parameters == [] && r.value.destinationPaths == []
  {
    match p.lastJobId
    case None => None
    case Some(id) => Some(WithStatus(NewJobResult(id, now), p.status, elapsed))
  }

  const StopMessage: string := "Cannot stop a non-running job."

  /**
   * The state after an order and the responses sent, in order. `panicked`
   * is set when the job's parameters could not be read: `handle` unwraps
   * them, so the processor thread stops there, after the progression and
   * with the status still `Running`.
   */
  datatype Handling = Handling(process: SimpleProcess, responses: seq<ResponseMessage>, panicked: bool)

  /**
   * A job or start order whose job's parameters do not decode: `decodes`
   * stands for `job.get_parameters()` returning `Ok`.
   */
  predicate Panics(order: OrderMessage, decodes: Job -> bool) {
    (order.JobOrder? || order.StartProcess?) && !decodes(order.job)
  }

  predicate PanicFree(orders: seq<HandledOrder>, decodes: Job -> bool) {
    forall i :: 0 <= i < |orders| ==> !Panics(orders[i], decodes)
  }

  /**
   * `handle`: the new state and the responses sent, in order. `execute` is
   * the worker's processing of the job (`MessageEvent::process`).
   */
  function Handle(p: SimpleProcess, order: OrderMessage, decodes: Job -> bool, execute: Job -> Result<JobResult, MessageError>, now: nat, elapsed: nat): (h: Handling)
    requires Handled(order)
    ensures h.panicked <==> Panics(order, decodes)
    ensures h.process.status == Running <==> h.panicked || (p.status == Running && (order.Status? || order.StopWorker?))
    ensures (order.JobOrder? || order.StartProcess?) ==>
      && |h.responses| >= 1 && h.responses[0] == FeedbackResponse(Progression(order.job.jobId, 0))
      && (h.panicked ==> h.responses == [h.responses[0]])
      && (!h.panicked ==> |h.responses| == 2)
      && (h.process.status == Completed <==> !h.panicked && execute(order.job).Ok?)
      && (h.process.status == Error <==> !h.panicked && execute(order.job).Err?)
    ensures order.InitProcess? ==>
      && h.process == p.(status := Initialized)
      && |h.responses| == 1 && h.responses[0].InitializedResponse?
      && h.responses[0].result.jobId == order.job.jobId && h.responses[0].result.status == Initialized
    ensures order.StopProcess? ==>
      && h.process == SimpleProcess(Completed, Some(order.job.jobId))
      && |h.responses| == 1 && h.responses[0].ErrorResponse? && h.responses[0].error.ProcessingError?
      && h.responses[0].error.result.jobId == order.job.jobId
      && h.responses[0].error.result.status == Error
      && Messages(h.responses[0].error.result.parameters) == [StopMessage]
    ensures (order.Status? || order.StopWorker?) ==>
      && h.process == p
      && h.responses == [FeedbackResponse(StatusFeedback(GetWorkerActivity(p), GetLastJobResult(p, now, elapsed)))]
    ensures !order.StopProcess? ==> h.process.lastJobId == p.lastJobId
  {
    match order
    case InitProcess(job) =>
      Handling(p.(status := Initialized), [InitializedResponse(WithStatus(NewJobResult(job.jobId, now), Initialized, elapsed))], false)
    case JobOrder(job) => Execute(p, job, decodes, execute)
    case StartProcess(job) => Execute(p, job, decodes, execute)
    case StopProcess(job) =>
      var failed := WithStatus(NewJobResult(job.jobId, now), Error, elapsed);
      MessagesAppend(failed, StopMessage);
      var result := WithMessage(failed, StopMessage);
      Handling(SimpleProcess(Completed, Some(job.jobId)), [ErrorResponse(ProcessingError(result))], false)
    case _ =>
      Handling(p, [FeedbackResponse(StatusFeedback(GetWorkerActivity(p), GetLastJobResult(p, now, elapsed)))], false)
  }

  /**
   * The job and start arms: progress 0 first; then, when the parameters
   * decode, the processing outcome, and otherwise the panic.
   */
  function Execute(p: SimpleProcess, job: Job, decodes: Job -> bool, execute: Job -> Result<JobResult, MessageError>): (h: Handling)
    ensures |h.responses| >= 1 && h.responses[0] == FeedbackResponse(Progression(job.jobId, 0))
    ensures h.panicked <==> !decodes(job)
    ensures h.panicked ==> h.process == p.(status := Running) && |h.responses| == 1
    ensures !h.panicked ==> |h.responses| == 2
    ensures !h.panicked && execute(job).Ok? ==>
      h.process == p.(status := Completed) && h.responses[1] == CompletedResponse(execute(job).value)
    ensures !h.panicked && execute(job).Err? ==>
      h.process == p.(status := Error) && h.responses[1] == ErrorResponse(execute(job).error)
  {
    var progress := FeedbackResponse(Progression(job.jobId, 0));
    if !decodes(job) then Handling(p.(status := Running), [progress], true)
    else
      match execute(job)
      case Ok(result) => Handling(p.(status := Completed), [progress, CompletedResponse(result)], false)
      case Err(error) => Handling(p.(status := Error), [progress, ErrorResponse(error)], false)
  }

  /**
   * The processor after a sequence of orders. It stops at the first order
   * that panics, since its thread is gone; `Running` outlives an order
   * exactly when one panicked.
   */
  function HandleAll(p: SimpleProcess, orders: seq<HandledOrder>, decodes: Job -> bool, execute: Job -> Result<JobResult, MessageError>, now: nat): (q: SimpleProcess)
    ensures p.status != Running ==> (q.status == Running <==> !PanicFree(orders, decodes))
    decreases |orders|
  {
    if |orders| == 0 then p
    else
      var h := Handle(p, orders[0], decodes, execute, now, 0);
      if h.panicked then h.process
      else
        PanicFreeFront(orders, decodes);
        HandleAll(h.process, orders[1..], decodes, execute, now)
  }

  lemma PanicFreeFront(orders: seq<HandledOrder>, decodes: Job -> bool)
    requires |orders| > 0
    ensures PanicFree(orders, decodes) <==> !Panics(orders[0], decodes) && PanicFree(orders[1..], decodes)
  {
    if !Panics(orders[0], decodes) && PanicFree(orders[1..], decodes) {
      forall i | 0 <= i < |orders| ensures !Panics(orders[i], decodes) {
        if i > 0 { assert orders[i] == orders[1..][i - 1]; }
      }
    }
  }

  /** Busy exactly when the last order that changed the status was an initialisation. */
  predicate LastChangeWasInit(orders: seq<OrderMessage>)
    decreases |orders|
  {
    if |orders| == 0 then false
    else
      var last := orders[|orders| - 1];
      if last.Status? || last.StopWorker? then LastChangeWasInit(orders[..|orders| - 1])
      else last.InitProcess?
  }

  /** `HandleAll` on a non-empty sequence: the first order, then the rest unless it panicked. */
  lemma HandleAllFront(p: SimpleProcess, orders: seq<HandledOrder>, decodes: Job -> bool, execute: Job -> Result<JobResult, MessageError>, now: nat)
    requires |orders| > 0
    ensures var h := Handle(p, orders[0], decodes, execute, now, 0);
            HandleAll(p, orders, decodes, execute, now)
            == (if h.panicked then h.process else HandleAll(h.process, orders[1..], decodes, execute, now))
  {
  }

  /** After orders none of which panicked, handling one more order is one more step. */
  lemma {:induction false} HandleAllSnoc(p: SimpleProcess, orders: seq<HandledOrder>, decodes: Job -> bool, execute: Job -> Result<JobResult, MessageError>, now: nat)
    requires |orders| > 0
    requires PanicFree(orders[..|orders| - 1], decodes)
    ensures HandleAll(p, orders, decodes, execute, now)
         == Handle(HandleAll(p, orders[..|orders| - 1], decodes, execute, now), orders[|orders| - 1], decodes, execute, now, 0).process
    decreases |orders|
  {
    var init, last := orders[..|orders| - 1], orders[|orders| - 1];
    var h := Handle(p, orders[0], decodes, execute, now, 0);
    HandleAllFront(p, orders, decodes, execute, now);
    if |orders| > 1 {
      assert init[0] == orders[0];
      PanicFreeFront(init, decodes);
      HandleAllFront(p, init, decodes, execute, now);
      var rest := orders[1..];
      assert rest[..|rest| - 1] == init[1..] && rest[|rest| - 1] == last;
      HandleAllSnoc(h.process, rest, decodes, execute, now);
    }
  }

  /** Once an order has panicked, later orders change nothing. */
  lemma {:induction false} HandleAllAfterPanic(p: SimpleProcess, orders: seq<HandledOrder>, decodes: Job -> bool, execute: Job -> Result<JobResult, MessageError>, now: nat)
    requires |orders| > 0
    requires !PanicFree(orders[..|orders| - 1], decodes)
    ensures HandleAll(p, orders, decodes, execute, now) == HandleAll(p, orders[..|orders| - 1], decodes, execute, now)
    decreases |orders|
  {
    var init := orders[..|orders| - 1];
    var h := Handle(p, orders[0], decodes, execute, now, 0);
    assert init[0] == orders[0];
    PanicFreeFront(init, decodes);
    HandleAllFront(p, orders, decodes, execute, now);
    HandleAllFront(p, init, decodes, execute, now);
    if !h.panicked {
      var rest := orders[1..];
      assert rest[..|rest| - 1] == init[1..];
      HandleAllAfterPanic(h.process, rest, decodes, execute, now);
    }
  }

  /**
   * From a fresh processor, the worker reports itself busy exactly when an
   * order panicked or the last order that changed the status was an
   * initialisation.
   */
  lemma {:induction false} BusyAfterInitOnly(orders: seq<HandledOrder>, decodes: Job -> bool, execute: Job -> Result<JobResult, MessageError>, now: nat)
    ensures GetWorkerActivity(HandleAll(NewProcess, orders, decodes, execute, now)) == Busy
        <==> !PanicFree(orders, decodes) || LastChangeWasInit(orders)
    decreases |orders|
  {
    if |orders| > 0 {
      var init, last := orders[..|orders| - 1], orders[|orders| - 1];
      assert PanicFree(orders, decodes) <==> PanicFree(init, decodes) && !Panics(last, decodes) by {
        if PanicFree(init, decodes) && !Panics(last, decodes) {
          forall i | 0 <= i < |orders| ensures !Panics(orders[i], decodes) {
            if i < |init| { assert orders[i] == init[i]; }
          }
        }
        if PanicFree(orders, decodes) {
          forall i | 0 <= i < |init| ensures !Panics(init[i], decodes) {
            assert init[i] == orders[i];
          }
        }
      }
      BusyAfterInitOnly(init, decodes, execute, now);
      var q := HandleAll(NewProcess, init, decodes, execute, now);
      if !PanicFree(init, decodes) {
        HandleAllAfterPanic(NewProcess, orders, decodes, execute, now);
      } else {
        HandleAllSnoc(NewProcess, orders, decodes, execute, now);
        assert HandleAll(NewProcess, orders, decodes, execute, now) == Handle(q, last, decodes, execute, now, 0).process;
        StepActivity(q, last, decodes, execute, now);
        assert LastChangeWasInit(orders) == if last.Status? || last.StopWorker? then LastChangeWasInit(init) else last.InitProcess?;
      }
    }
  }

  /** One order: a status query keeps the activity, an initialisation or a panic makes it busy, anything else idle. */
  lemma StepActivity(p: SimpleProcess, order: OrderMessage, decodes: Job -> bool, execute: Job -> Result<JobResult, MessageError>, now: nat)
    requires Handled(order) && p.status != Running
    ensures var a := GetWorkerActivity(Handle(p, order, decodes, execute, now, 0).process);
            if order.Status? || order.StopWorker? then a == GetWorkerActivity(p)
            else (a == Busy <==> order.InitProcess? || Panics(order, decodes))
  {
  }

  /** After a stop, a status order reports the stopped job as completed and the worker idle. */
  lemma StopThenStatus(p: SimpleProcess, job: Job, decodes: Job -> bool, execute: Job -> Result<JobResult, MessageError>, now: nat, elapsed: nat)
    ensures var q := Handle(p, StopProcess(job), decodes, execute, now, elapsed).process;
            var status := Handle(q, Status, decodes, execute, now, elapsed).responses[0].feedback;
            && status.activity == Idle
            && status.lastJobResult.Some?
            && status.lastJobResult.value.jobId == job.jobId
            && status.lastJobResult.value.status == Completed
  {
  }
}
