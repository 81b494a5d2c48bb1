/** Failure-carrying results shared by every module of the model.
    The source signals failures by raising Python exceptions; the model
    returns them as values instead. */
module Wrappers {

  datatype Option<+T> = None | Some(value: T)

  /** The exception classes the core raises or lets numpy raise. */
  datatype Error =
    | ShapeMismatch                 // ValueError from an explicit shape check or from numpy's reshape
    | IndexOutOfRange               // IndexError from list or array indexing
    | MissingAttribute(name: string) // AttributeError for a field the object does not have
    | NotImplemented(what: string)   // NotImplementedError from an abstract method

  datatype Result<+T> = Ok(value: T) | Err(error: Error)
}
