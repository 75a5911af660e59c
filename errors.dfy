/** The error taxonomy of the access layer (resource_queries.py), plus the
    two built-in exceptions the older server and the CLI installer raise. */
module Errors {
  import opened Wrappers

  datatype Error =
    /** Base class: configuration and console failures. */
    | FlightControlError(message: string)
    /** Subclass of FlightControlError: the token exchange failed, or the
        backend answered 401. */
    | AuthenticationError(message: string)
    /** Subclass of FlightControlError: any other failed backend request. */
    | APIError(message: string, statusCode: Option<nat>, responseText: Option<string>)
    /** Python's built-in RuntimeError. */
    | RuntimeError(message: string)
    /** subprocess.CalledProcessError raised by `subprocess.run(..., check=True)`
        for the given argument vector. */
    | CalledProcessError(command: seq<string>)
    /** Python's built-in OSError, raised by `subprocess.run` when the
        executable cannot be started. */
    | OSError(message: string)
  {
    /** `isinstance(e, FlightControlError)` */
    predicate IsFlightControlError() {
      FlightControlError? || AuthenticationError? || APIError?
    }
  }
}
