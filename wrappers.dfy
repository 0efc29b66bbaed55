/** Option and Result values for lookups that may miss and operations that may fail. */
module Wrappers {

  datatype Option<+T> = None | Some(value: T)

  datatype Result<+R, +E> = Success(value: R) | Failure(error: E)

  /** The entries of a Go map that may be nil: a nil map reads as empty. */
  function OrEmpty<K, V>(m: Option<map<K, V>>): map<K, V>
  {
    match m
    case None => map[]
    case Some(entries) => entries
  }
}
