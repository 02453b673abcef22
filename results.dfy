/** Error-carrying results, the model of `std::expected<T, std::string>` as the
    configuration library uses it: a value or a human-readable message. */
module Results {

  datatype Option<+T> = None | Some(value: T)

  /** `expected<T, string>`: a value or an error message. */
  datatype Expected<+T> = Ok(value: T) | Err(error: string)

  /** `expected<void, string>`: success without a value, or an error message. */
  datatype Outcome = Pass | Fail(error: string)
}
