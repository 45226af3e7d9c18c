/// The error values the core returns instead of panicking.
module Errors {
  /// A message that could not be decoded (the source's `ZMQParseError`; its
  /// `ParseError` variant is called `ParseFailure` here).
  datatype ZmqParseError = ParseFailure(msg: string) | InvalidTaskType

  /// The crate-wide error type (the source's `GenericError`).
  datatype GenericError =
    | MissingAgents
    | TimeoutError
    | ZmqError(cause: ZmqParseError)
    | ParseError(msg: string)
    | RuntimeError(msg: string)
    | NoDataException(msg: string)
    | WorkflowError(msg: string)

  /// The display text of a decoding error.
  function ZmqParseErrorText(e: ZmqParseError): (r: string)
    ensures e.ParseFailure? ==> r == "ParseError: " + e.msg
    ensures e.InvalidTaskType? ==> r == "Invalid task type"
  {
    match e
    case ParseFailure(m) => "ParseError: " + m
    case InvalidTaskType => "Invalid task type"
  }
}
