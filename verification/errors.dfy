/** The exceptions the client raises, one constructor per PHP exception class. The classes of
    the package's own Exceptions namespace are not part of this model; ChatGPTException is taken
    to extend \Exception (the retry loop's generic handler catches it), and AuthenticationException
    and RateLimitException are taken to be distinct from it. */
module Errors {
  import opened Wrappers

  datatype Failure =
    | InvalidArgumentException(message: string)
    | RuntimeException(message: string)
    | AuthenticationException(message: string)
    | RateLimitException(message: string)
    | ChatGPTException(message: string, code: int, previous: Option<Failure>)
      /** Whatever the HTTP layer throws for a failed connection or a timeout. */
    | ConnectionException(message: string)
      /** PHP's TypeError, an \Error that no `catch (\Exception ...)` intercepts. */
    | TypeError(message: string)
      /** PHP's ValueError, also an \Error. */
    | ValueError(message: string)
}
