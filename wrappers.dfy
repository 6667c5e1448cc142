/** Option and Result: Python's `None` and raised exceptions, made explicit; and `dict.get` with a default. */
module Wrappers {

  datatype Option<+T> = None | Some(value: T)

  datatype Result<+R, +E> = Success(value: R) | Failure(error: E)

  /** Python's `d.get(key, default)`: the stored value when the key is present, else the default. */
  function GetOr<K, V>(m: map<K, V>, key: K, default: V): (v: V)
    ensures key in m ==> v == m[key]
    ensures key !in m ==> v == default
  {
    if key in m then m[key] else default
  }
}
