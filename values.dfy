/** Values shared by the gateway and the booking controller: optional values,
    results, the parsed JSON that travels in a booking envelope, and the way a
    JavaScript promise settles. */
module Values {

  datatype Option<+T> = None | Some(value: T)

  datatype Result<+T, +E> = Ok(value: T) | Err(error: E)

  /** One property of a parsed JSON object: missing (`undefined`), a number,
      a string, or any other JSON value (null, boolean, array, object). */
  datatype Value = Absent | Number(n: real) | Text(s: string) | OtherValue

  /** The `data` member of a booking envelope. A missing member is `undefined`;
      an object is seen through the five properties the controller reads. */
  datatype Data =
    | Undefined
    | NonObject
    | Object(clinicId: Value, code: Value, date: Value, startTime: Value, endTime: Value)

  /** What the rate limiter reports (remaining points, time to the next point). */
  datatype LimiterRes = LimiterRes(remainingPoints: int, msBeforeNext: int, consumedPoints: int)

  /** Errors raised by the circuit breaker itself; both are `Error` instances. */
  datatype BreakerError = BreakerIsOpen | TimedOut

  /** A value a promise can be rejected with: either an instance of `Error`,
      or a plain value such as the limiter's own result object. */
  datatype Thrown = ErrorInstance(error: BreakerError) | NonError(res: LimiterRes)
  {
    /** `value instanceof Error` */
    predicate IsError() { ErrorInstance? }
  }

  /** How a promise that carries no value settles. */
  datatype Settlement = Fulfilled | Rejected(reason: Thrown)
}
