/** Small value types shared by the page models. */
module Common {

  /** A value that may be absent (`null`, or a date string that does not parse). */
  datatype Option<T> = None | Some(value: T)

  /**
   * The outcome of one awaited backend call: it resolves with the decoded
   * response body, or it rejects (transport error or non-2xx status).
   */
  datatype Response<T> = Ok(data: T) | Failed
}
