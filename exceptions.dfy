/**
 * The library's error taxonomy (JenkinsError and its JenkinsNotFoundError
 * subclass) and the other exceptions that can escape its coroutines.
 */
module Exceptions {
  import opened Wrappers

  /** Which of the two library exception classes an error was raised as. */
  datatype ErrorClass = Generic | NotFound

  /** A JenkinsError: an optional message and an optional HTTP status. */
  datatype JenkinsError = JenkinsError(kind: ErrorClass, message: Option<string>, status: Option<int>)

  /** Every exception that can leave a call into the library. */
  datatype Exception =
    | Jenkins(error: JenkinsError)
      /** a transport failure raised by the HTTP session (aiohttp's ClientError) */
    | ClientError
      /** a request timeout (asyncio.TimeoutError) */
    | TimeoutError
      /** the RuntimeError raised by a session that was closed */
    | SessionClosed
      /** KeyError, TypeError or ValueError raised on a body without the expected shape */
    | Malformed

  /** `JenkinsError(message=None, status=None)`: the constructor keeps both arguments as given. */
  function NewJenkinsError(message: Option<string> := None, status: Option<int> := None): (e: JenkinsError)
    ensures e.kind == Generic && e.message == message && e.status == status
  {
    JenkinsError(Generic, message, status)
  }

  /** `JenkinsNotFoundError(message=None, status=None)`: inherits the constructor. */
  function NewNotFoundError(message: Option<string> := None, status: Option<int> := None): (e: JenkinsError)
    ensures e.kind == NotFound && e.message == message && e.status == status
  {
    JenkinsError(NotFound, message, status)
  }

  /** What `except JenkinsError` catches. */
  predicate IsJenkinsError(x: Exception) {
    x.Jenkins?
  }

  /** What `except JenkinsNotFoundError` catches. */
  predicate IsNotFound(x: Exception) {
    x.Jenkins? && x.error.kind == NotFound
  }

  /** A JenkinsError whose status is 403 (FORBIDDEN). */
  predicate IsForbidden(x: Exception) {
    x.Jenkins? && x.error.status == Some(403)
  }

  /** The subclass relation: a handler for JenkinsError also catches JenkinsNotFoundError. */
  lemma NotFoundIsJenkinsError(x: Exception)
    ensures IsNotFound(x) ==> IsJenkinsError(x)
  {
  }

  /** An error raised without a status is never taken for a 403. */
  lemma StatuslessIsNotForbidden(message: Option<string>)
    ensures !IsForbidden(Jenkins(NewJenkinsError(message)))
    ensures !IsForbidden(Jenkins(NewNotFoundError(message)))
  {
  }
}
