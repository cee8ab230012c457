/** Small shared value types: an optional value, a success-or-error result and
    the loosely typed values an options dictionary can hold. */
module Values {

  datatype Option<T> = None | Some(value: T)

  datatype Result<T, E> = Ok(value: T) | Err(error: E)

  /** A value stored in a run's options dictionary: a number or a piece of text. */
  datatype OptVal = Num(x: real) | Text(s: string)
}
