/** Small value types shared by every module of the model. */
module Common {

  /** An optional value: JavaScript's `T | null`. */
  datatype Option<+T> = None | Some(value: T)

  /** A value or the error a call would have thrown. */
  datatype Result<+T, +E> = Ok(value: T) | Err(error: E)

  /** A call that returns nothing, or the error it would have thrown. */
  datatype Outcome<+E> = Pass | Fail(error: E)

  /** `message || fallback`: the text a catch block shows for a caught error. */
  function ToastText(message: string, fallback: string): string {
    if message != "" then message else fallback
  }

  /** A point in time in milliseconds since the epoch. The application stores
      ISO-8601 strings and compares them through `Date.getTime()`; the model keeps
      only the number. */
  type Timestamp = int
}
