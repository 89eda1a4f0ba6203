/** Failure-carrying values shared by every module: a C# exception that
    escapes an operation becomes `Err(message)`, a C# `null` becomes `None`. */
module Wrappers {

  datatype Option<+T> = None | Some(value: T)

  datatype Outcome<+T> = Ok(value: T) | Err(msg: string)

  /** The result of a guard that either lets execution continue or throws. */
  datatype Check = Pass | Fail(msg: string)

  datatype Unit = Unit
}
