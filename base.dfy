/** Option and Result, shared by every module of the model. */
module Base {

  datatype Option<+T> = None | Some(value: T)

  /** The outcome of a step that can raise an exception. */
  datatype Result<+T, +E> = Ok(value: T) | Err(error: E)

  /** A Moodle exception: its error code (a language-string identifier) and
      its debug information ("" when none was given). */
  datatype Thrown = Thrown(errorcode: string, debuginfo: string)
}
