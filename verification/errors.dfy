/** The parser's exceptions, and the two shapes in which the model reports them. */
module Errors {

  // Numeric codes carried by the parser's exceptions.
  const ILLEGAL_TYPE_NAME := 1
  const UNKNOWN_TYPE := 39
  const ILLEGAL_EXECUTOR := 28
  const TYPE_MISMATCH := 50
  const SCRIPT_PATH_ALREADY_DEFINED := 60
  const SCRIPT_PLUGIN_MISSING := 61
  const VERSION_TOO_OLD := 81
  const AMBIGUOUS_MAPPING := 91
  const UNDEFINED_PROPERTY := 106
  const MISSING_PROPERTY := 107

  /** An exception the parser raises, with its code and the name it is about
      (the offending property, type or operation). Message texts are not modelled. */
  datatype Error =
    | LogicError(code: int, subject: string)          // DSLParsingLogicException
    | FormatError(code: int, subject: string)         // DSLParsingFormatException
    | ElementMatchError(code: int, subject: string)   // DSLParsingElementMatchException
    | DefinitionsVersionMismatch(subject: string)     // ERROR_CODE_DSL_DEFINITIONS_VERSION_MISMATCH
    | ValueError(subject: string)                     // Python ValueError
    | RuntimeError(subject: string)                   // Python RuntimeError / KeyError
    | DepthExhausted(subject: string)                 // the model's recursion bound ran out

  /** The outcome of one run: a value, or the one exception that was raised. */
  datatype Result<T> = Success(value: T) | Failure(error: Error)

  /** The outcome of an operation whose source iterates over a dict: Python 2
      gives no iteration order, so a failure is described by the SET of
      exceptions that some iteration order raises. */
  datatype Outcome<T> = Ok(value: T) | Fail(errors: set<Error>)

  /** A single run `r` is one of the behaviours `spec` allows. */
  predicate Admits<T(==)>(spec: Outcome<T>, r: Result<T>)
  {
    match r
    case Success(v) => spec == Ok(v)
    case Failure(e) => spec.Fail? && e in spec.errors
  }

  /** The result of a validator that returns nothing or raises. */
  datatype Check = Pass | Reject(error: Error)
}
