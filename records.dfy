/** Values shared by every layer: a record, the store's one error kind,
    and the result of an operation that may raise it. */
module Records {

  /** A record has no identity beyond its position in the store. */
  type Record = string

  /** The exception raised by the store's index-guarded operations. */
  datatype Error = IndexError(message: string)

  /** The store raises exactly this error on an out-of-range index. */
  const OutOfRange: Error := IndexError("Record index out of range")

  /** Either the value an operation returns, or the error it raises. */
  datatype Result<T> = Ok(value: T) | Err(error: Error)

  /** The guard of the store's update and delete: `0 <= index < length`. */
  predicate InRange(index: int, length: nat)
  {
    0 <= index < length
  }
}
