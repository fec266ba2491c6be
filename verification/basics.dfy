/** Shared vocabulary: optional values, results, and the two pieces of Python
    semantics the bot relies on everywhere (`dict.get` with a default, and the
    truth value of a possibly-`None` string). */
module Basics {

  /** A value that may be absent; `None` plays the part of Python's `None`. */
  datatype Option<+T> = None | Some(value: T)

  /** Either a value or the error that prevented it. */
  datatype Result<+T, +E> = Ok(value: T) | Err(error: E)

  /** Python's `d.get(key, default)`. */
  function Get<K, V>(m: map<K, V>, k: K, default: V): V
  {
    if k in m then m[k] else default
  }

  /** The truth value of a string-or-`None` in a Python condition:
      both `None` and `''` are false. */
  predicate HasText(v: Option<string>)
  {
    v.Some? && v.value != ""
  }
}
