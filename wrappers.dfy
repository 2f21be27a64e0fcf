/** Option, the success/error outcome returned by the HTTP handlers, and
    `dict.get` with a default. */
module Wrappers {

  datatype Option<+T> = None | Some(value: T)

  /** A handler's answer: a value, or an HTTP status with the error message it sends. */
  datatype Outcome<+T> = Ok(value: T) | Err(status: nat, message: string)

  /** `data.get(k, default)` on a request's JSON object. */
  function Get<K, V>(data: map<K, V>, k: K, default: V): (v: V)
    ensures k in data ==> v == data[k]
    ensures k !in data ==> v == default
  {
    if k in data then data[k] else default
  }
}
