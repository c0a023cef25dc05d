/** Option and outcome types shared by the model, and the Python exceptions
    the renderer's code can raise. */
module Wrappers {

  datatype Option<+T> = None | Some(value: T)

  /** The Python exceptions that the modelled code raises on some inputs. */
  datatype Exception =
    | IndexError      // `pop()` or `[-1]` on an empty list
    | AttributeError  // a missing attribute or method, e.g. a field of `None`
    | NameError       // an undefined global name
    | ValueError      // an ordinal that is not a member of an enumeration

  /** A value, or the exception raised instead of producing it. */
  datatype Result<+T> = Ok(value: T) | Err(exception: Exception)

  /** How a call ended: normally, or by raising. */
  datatype Outcome = Pass | Fail(exception: Exception)
}
