/** Small failure-carrying datatypes shared by the ledger modules. */
module Wrappers {

  /** `None` stands for a missing value. What is missing depends on the
      user: an omitted or `null` argument in storage calls, a `NaN` from
      number parsing in parsed amounts and menu choices. */
  datatype Option<+T> = None | Some(value: T)

  /** Either a value or the message of the error the source throws. */
  datatype Result<+R, +E> = Ok(value: R) | Err(error: E)
}
