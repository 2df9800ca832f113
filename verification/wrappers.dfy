/**
 * Failure-carrying datatypes shared by every module of the model.
 *
 * The backend signals errors by throwing an `HttpException(status, message)`
 * that the Express error middleware turns into a response; a plain `Error`
 * (thrown, for instance, by the IPFS helper) reaches the same middleware
 * without a status of its own. Both are values here.
 */
module Wrappers {

  datatype Option<+T> = None | Some(value: T)

  /** What the error middleware receives: a classified `HttpException`, or a plain error. */
  datatype Failure = Http(status: int, message: string) | Unclassified

  datatype Result<+T> = Ok(value: T) | Err(failure: Failure)

  /** The outcome of a call into code outside the model (an SDK, the network): a value, or an exception. */
  datatype Attempt<+T> = Done(value: T) | Threw

  /** What a registry read returns: an exception, an empty result array, or a row. */
  datatype ReadOutcome<+T> = ReadThrew | ReadEmpty | Row(value: T)

  /** The result of JavaScript's `parseInt`: `NaN`, or an integer. */
  datatype IntParse = NaN | Int(value: int)

  /** JavaScript truthiness of a number that is `NaN` or an integer. */
  predicate IsTruthyInt(n: IntParse) {
    n.Int? && n.value != 0
  }

  /** JavaScript truthiness of an optional string (`undefined`/`null` and `""` are falsy). */
  predicate IsTruthyString(s: Option<string>) {
    s.Some? && |s.value| > 0
  }

  /** `x || fallback` for an optional string. */
  function OrElse(s: Option<string>, fallback: string): string
  {
    if s.Some? && |s.value| > 0 then s.value else fallback
  }
}
