/** The downstream HTTP call and its verdict (cmd/worker/downstream.go, job_error.go, handle_job.go). */
module Downstream {
  import opened Engine

  datatype Error =
    | JobError(msg: string, retryable: bool, httpStatus: int, cause: Option<string>)
    | OtherError(msg: string)

  /** What the transport did with one request. */
  datatype Transport =
    | MarshalFailed(cause: string)
    | BuildFailed(cause: string)
    | NoResponse(cause: string)
    | Response(status: int)

  function Text(e: Error): string {
    match e
    case JobError(msg, _, _, Some(cause)) => msg + ": " + cause
    case JobError(msg, _, _, None) => msg
    case OtherError(msg) => msg
  }

  /** An error that carries no verdict counts as retryable. */
  predicate IsRetryable(e: Error) {
    e.JobError? ==> e.retryable
  }

  function ClassifyHTTPStatus(status: int): Error {
    if status >= 500 || status == 429 then
      JobError("downstream error", true, status, None)
    else if status == 400 || status == 404 || status == 422 then
      JobError("downstream rejected job", false, status, None)
    else
      JobError("downstream unexpected status", false, status, None)
  }

  function Verdict(t: Transport): Option<Error> {
    match t
    case MarshalFailed(cause) => Some(JobError("marshal job", false, 0, Some(cause)))
    case BuildFailed(cause) => Some(JobError("build request", false, 0, Some(cause)))
    case NoResponse(cause) => Some(JobError("downstream request", true, 0, Some(cause)))
    case Response(status) =>
      if 200 <= status < 300 then None else Some(ClassifyHTTPStatus(status))
  }

  /** Each shape of error reads differently: the message alone, or the message and its cause. */
  lemma TextIs(msg: string, retryable: bool, status: int, cause: string)
    ensures Text(JobError(msg, retryable, status, None)) == msg
    ensures Text(JobError(msg, retryable, status, Some(cause))) == msg + ": " + cause
    ensures Text(OtherError(msg)) == msg
    ensures IsRetryable(JobError(msg, retryable, status, None)) == retryable && IsRetryable(OtherError(msg))
  {
  }

  /** The client the worker is given; `delivered` is the log of `DeliverJob` calls. */
  class Client {
    var delivered: seq<Job>

    constructor ()
      ensures delivered == []
    {
      delivered := [];
    }

    method DeliverJob(job: Job, t: Transport) returns (err: Option<Error>)
      modifies this
      ensures delivered == old(delivered) + [job]
      ensures err == Verdict(t)
      ensures err.None? <==> t.Response? && 200 <= t.status < 300
      ensures err.Some? && IsRetryable(err.value) <==>
              t.NoResponse? || (t.Response? && (t.status >= 500 || t.status == 429))
      ensures err.Some? ==> err.value.JobError? && IsRetryable(err.value) == err.value.retryable
      ensures err.Some? && t.Response? ==>
                && err.value.httpStatus == t.status && err.value.cause == None
                && err.value.msg == (if t.status >= 500 || t.status == 429 then "downstream error"
                                     else if t.status == 400 || t.status == 404 || t.status == 422
                                     then "downstream rejected job" else "downstream unexpected status")
      ensures !t.Response? ==> err.value.httpStatus == 0 && err.value.cause == Some(t.cause)
      ensures t.MarshalFailed? ==> err.value.msg == "marshal job"
      ensures t.BuildFailed? ==> err.value.msg == "build request"
      ensures t.NoResponse? ==> err.value.msg == "downstream request"
    {
      delivered := delivered + [job];
      match t
      case MarshalFailed(cause) => return Some(JobError("marshal job", false, 0, Some(cause)));
      case BuildFailed(cause) => return Some(JobError("build request", false, 0, Some(cause)));
      case NoResponse(cause) => return Some(JobError("downstream request", true, 0, Some(cause)));
      case Response(status) =>
        if 200 <= status < 300 {
          return None;
        }
        return Some(ClassifyHTTPStatus(status));
    }

    /** `handleJob`: one delivery, its verdict passed on unchanged. */
    method HandleJob(job: Job, t: Transport) returns (err: Option<Error>)
      modifies this
      ensures delivered == old(delivered) + [job]
      ensures err == Verdict(t)
    {
      err := DeliverJob(job, t);
    }
  }
}
