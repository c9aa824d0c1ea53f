/** The values that travel through the pipeline (internal/engine, the topic record, and faults). */
module Engine {

  datatype Option<+T> = None | Some(value: T)

  /** A Go `(T, error)` pair: the error's text matters nowhere except where it is stored. */
  datatype Result<+T> = Ok(value: T) | Err

  datatype Job = Job(stripeEventId: string, eventType: string, payload: string)

  /** The bytes of an outbox payload or of a topic record, as `json.Unmarshal` sees them. */
  datatype Value = Encoded(job: Job) | Garbage

  datatype Record = Record(key: string, value: Value)

  /** What can go wrong with one statement or broker call: the caller gets an error and the
      effect is lost, or the caller gets an error although the effect was applied. */
  datatype Fault = NoFault | ErrLost | ErrApplied

  /** The two early exits of `handleRecord` are exactly the values this rejects. */
  predicate Handleable(v: Value) {
    v.Encoded? && v.job.stripeEventId != ""
  }
}
