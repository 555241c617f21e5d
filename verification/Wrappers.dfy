/** Outcomes shared by the whole model. */
module Wrappers {

  datatype Option<+T> = None | Some(value: T)

  /** Corrupt is a failed integrity check; Malformed is any other refusal of stored bytes or arguments. */
  datatype Error = Corrupt | Malformed

  datatype Result<+T> = Ok(value: T) | Err(error: Error)
}
