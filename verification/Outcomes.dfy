/** Results of calls that may fail. What the failure says is not modelled. */
module Outcomes {
  datatype Option<T> = None | Some(value: T)
  datatype Outcome<T> = Ok(value: T) | Failed
}
