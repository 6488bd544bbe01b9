/** Small shared datatypes: optional values, results, and dictionary lookup with a default. */
module Common {

  /** A value that may be absent: a missing query parameter, a `None` cell, a NaN statistic. */
  datatype Option<T> = None | Some(value: T)

  /** Either a computed value or the error an endpoint reports instead. */
  datatype Result<T, E> = Ok(value: T) | Err(error: E)

  /** Python's `d.get(k, default)` on a dictionary. */
  function Get<K, V>(m: map<K, V>, k: K, default: V): (r: V)
    ensures k in m ==> r == m[k]
    ensures k !in m ==> r == default
  {
    if k in m then m[k] else default
  }
}
