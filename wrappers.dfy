/** Small value types shared by every page of the model. */
module Wrappers {

  /** A value that may be absent: JavaScript's `null` / `undefined`. */
  datatype Option<+T> = None | Some(value: T) {
    function GetOr(default: T): T {
      match this
      case Some(v) => v
      case None => default
    }
  }

  /** The abstract outcome of one awaited network call.
      `Ok` is a response whose `res.ok` is true and whose body parsed to `payload`;
      `NotOk` is a response with a non-2xx status; `Thrown` is a rejected promise
      (transport failure, timeout, or an exception while reading the body). */
  datatype Response<+T> = Ok(payload: T) | NotOk | Thrown

  /** The outcome of a call through an axios-style client, which throws on a
      non-2xx status. `detail` is `err.response?.data?.detail`, "" when absent. */
  datatype Call<+T> = Done(value: T) | Failed(detail: string)
}
