/** Failure-compatible types shared by every module of the model. */
module Common {

  type Uuid = nat

  datatype Option<+T> = None | Some(value: T)

  /** A value, or the reason a transaction was refused and rolled back. */
  datatype Result<+T> = Ok(value: T) | Err(reason: string)
}
