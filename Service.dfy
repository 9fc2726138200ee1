/**
 * What a call to the back end looks like from the client: it either succeeds
 * with a value, or fails, possibly carrying the server's message
 * (`error.response?.data?.message`).  Which of the two happens is a parameter
 * of every operation that makes such a call.
 */
module Service {
  import opened Text

  datatype Outcome<+T> = Success(value: T) | Failure(message: Option<string>)
}
