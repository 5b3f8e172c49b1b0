/** The package's error values: the validation sentinels and the wrapping done with `fmt.Errorf("...: %w")`. */
module Errors {
  import opened Strings

  /** The seven sentinel errors returned by credential validation. */
  datatype ValidationError =
    | AKIDRequired
    | AKIDMinLen
    | AKIDMaxLen
    | AKIDBadPrefix
    | AKIDInvalidChar
    | SAKRequired
    | STRequired

  /** The text each sentinel was created with. */
  function Text(e: ValidationError): Str {
    match e
    case AKIDRequired => "access key id required"
    case AKIDMinLen => "access key id is less than 16 characters long"
    case AKIDMaxLen => "access key id greater than 128 characters long"
    case AKIDBadPrefix => "access key id must begin with either AKIA or ASIA"
    case AKIDInvalidChar => "access key id must match the pattern ^[\\w]+$"
    case SAKRequired => "secret access key required"
    case STRequired => "session token required for ASIA access key id"
  }

  /** A Go error value as far as the package creates or passes one on. */
  datatype Error =
    | Invalid(reason: ValidationError)       // one of the sentinels
    | Remote(message: Str)                   // an error produced by the AWS SDK, passed through
    | Wrapped(context: Str, cause: Error)    // fmt.Errorf("<context>: %w", cause)

  /** The context Login wraps an identity-query error with. */
  const IdentityContext: Str := "getting caller identity"

  /** The context Login wraps an AssumeRole error with. */
  function AssumeContext(arn: Str): Str {
    "assuming role " + arn
  }

  /** err.Error() */
  function Message(e: Error): Str {
    match e
    case Invalid(r) => Text(r)
    case Remote(m) => m
    case Wrapped(c, cause) => c + ": " + Message(cause)
  }

  /** errors.Is: `target` is `e` or somewhere on the chain of causes that `%w` wrapping builds. */
  predicate Is(e: Error, target: Error) {
    e == target || (e.Wrapped? && Is(e.cause, target))
  }

  /** Wrapping keeps the cause visible to errors.Is and puts the context at the head of the message. */
  lemma WrappedKeepsCause(context: Str, cause: Error, target: Error)
    requires Is(cause, target)
    ensures Is(Wrapped(context, cause), target)
    ensures HasPrefix(Message(Wrapped(context, cause)), context + ": ")
  {
  }
}
