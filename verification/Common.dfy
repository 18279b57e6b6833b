/** What several models share: absent values, answers of a store, and the unit of time. */
module Common {

  datatype Option<T> = None | Some(value: T)

  /** A store answers, has nothing, or could not be read. */
  datatype Read<T> = Found(value: T) | Missing | Unreadable

  /** Times are nanoseconds since the zero time. */
  const SECOND := 1_000_000_000
}
