/** What the background tasks share: the errors they end with and the interruptible wait. */
module Client {
  import opened Wrappers

  /** `ClientError`; the wrapped causes of the source are reduced to their kind. */
  datatype ClientError =
    | TimeoutError
    | JoinThreadError
    | AlertClientError
    | EventClientError
    | RecorderClientError
    | SignalClientError

  /** How a `wait_timeout` ended: its sleep ran out, or a notification woke it first. */
  datatype WaitOutcome = Elapsed | Notified

  /** `Timeout::wait_timeout`: a wait cut short by a notification is a TimeoutError. */
  function WaitTimeout(outcome: WaitOutcome): (r: Result<(), ClientError>)
    ensures r.Ok? <==> outcome == Elapsed
    ensures r.Err? ==> r.error == TimeoutError
  {
    match outcome
    case Notified => Err(TimeoutError)
    case Elapsed => Ok(())
  }
}
