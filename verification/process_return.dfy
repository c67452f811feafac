/**
 * What a C worker's `process` call returned, and how it becomes the job's
 * outcome (src/process_return.rs).
 */
module ProcessReturns {
  import opened Wrappers
  import opened Strings
  import opened Jobs

  /**
   * A return code (`i32`), the worker's message and, for the C binding, the
   * output paths it reported.
   */
  datatype ProcessReturn = ProcessReturn(code: int, message: string, outputPaths: seq<string>)

  const ErrorCode: int := 1

  /** `ProcessReturn::new(code, message)`. */
  function NewProcessReturn(code: int, message: string): (r: ProcessReturn)
    ensures r.code == code && r.message == message && r.outputPaths == []
  {
    ProcessReturn(code, message, [])
  }

  /** `ProcessReturn::new_error(message)`: the error code is 1. */
  function NewError(message: string): (r: ProcessReturn)
    ensures r.code == ErrorCode && r.code != 0 && r.message == message
  {
    NewProcessReturn(ErrorCode, message)
  }

  function WithOutputPaths(pr: ProcessReturn, paths: seq<string>): (r: ProcessReturn)
    ensures r.code == pr.code && r.message == pr.message && r.outputPaths == paths
  {
    pr.(outputPaths := paths)
  }

  /**
   * `as_result(job_id)`: code 0 completes the job with the message; any other
   * code is a processing error whose message also names the code.
   */
  function AsResult(pr: ProcessReturn, jobId: nat, now: nat): (r: Result<JobResult, MessageError>)
    ensures r.Ok? <==> pr.code == 0
    ensures r.Ok? ==> r.value.jobId == jobId && r.value.status == Completed && Messages(r.value.parameters) == [pr.message]
    ensures r.Err? ==> r.error.ProcessingError?
    ensures r.Err? ==>
              && r.error.result.jobId == jobId && r.error.result.status == Error
              && Messages(r.error.result.parameters) == [pr.message + " (code: " + IntToString(pr.code) + ")"]
  {
    var initial := NewJobResult(jobId, now);
    if pr.code == 0 then
      var done := WithStatus(initial, Completed, 0);
      MessagesAppend(done, pr.message);
      Ok(WithMessage(done, pr.message))
    else
      var failed := WithStatus(initial, Error, 0);
      var text := pr.message + " (code: " + IntToString(pr.code) + ")";
      MessagesAppend(failed, text);
      Err(ProcessingError(WithMessage(failed, text)))
  }

  /** A worker error reported through `new_error` always fails the job, with code 1 in the message. */
  lemma NewErrorFails(message: string, jobId: nat, now: nat)
    ensures AsResult(NewError(message), jobId, now).Err?
    ensures Messages(AsResult(NewError(message), jobId, now).error.result.parameters) == [message + " (code: 1)"]
  {
    assert IntToString(1) == "1";
    assert message + " (code: " + IntToString(1) + ")" == message + " (code: 1)";
  }
}
