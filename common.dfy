/** Small value types shared by the whole model. */
module Common {

  /** A Java reference that may be null. */
  datatype Option<T> = None | Some(value: T)

  /** A value, or the message of the exception that was thrown instead. */
  datatype Result<T> = Ok(value: T) | Err(error: string)

  /** How a Maven goal ends: normally, or with a MojoExecutionException (or an
      unchecked exception) carrying a message. */
  datatype Outcome = Success | Failure(message: string)

  /** One line written to the Maven log. */
  datatype LogEntry = Info(message: string) | Warn(message: string)

  /** Appending to a log in two steps is appending the two parts at once. */
  lemma AppendTwice<T>(a: seq<T>, b: seq<T>, c: seq<T>)
    ensures a + b + c == a + (b + c)
  {
  }
}
