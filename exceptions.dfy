/**
 * errors/exceptions.py: the analyzer's exception hierarchy. The nine classes
 * differ only in their default message, and `ValidationError` and `APIError`
 * in how they merge their extra arguments into the context, so the class
 * becomes an `ErrorKind` tag on one error class.
 */
module Errors {
  import opened Wrappers
  import opened Validation
  import opened ErrorContexts

  /** Which class of the hierarchy an error is. */
  datatype ErrorKind =
    | Base
    | Authentication
    | RateLimit
    | NotFound
    | Network
    | ValidationFailure
    | Configuration
    | Api
    | CacheFailure

  /** The default `message` of each subclass constructor; the base class has none. */
  function DefaultMessage(kind: ErrorKind): (r: string)
    requires kind != Base
    ensures r != []
  {
    match kind
    case Authentication => "Authentication failed"
    case RateLimit => "Rate limit exceeded"
    case NotFound => "Resource not found"
    case Network => "Network error occurred"
    case ValidationFailure => "Validation failed"
    case Configuration => "Configuration error"
    case Api => "API error occurred"
    case CacheFailure => "Cache error occurred"
  }

  /** No two subclasses share a default message, so the message alone tells the class. */
  lemma {:induction false} DefaultMessagesDistinct(a: ErrorKind, b: ErrorKind)
    requires a != Base && b != Base && a != b
    ensures DefaultMessage(a) != DefaultMessage(b)
  {
  }

  /**
   * An exception from outside the analyzer: whether it has a `status`
   * attribute and its value, `str(e)`, and the standard classes it is an
   * instance of.
   */
  datatype Foreign = Foreign(
    hasStatus: bool,
    status: Option<int>,
    text: string,
    isValueError: bool,
    isTimeout: bool,
    isConnectionError: bool)

  /** `GitHubRepoAnalyzerError` and its subclasses. */
  class AnalyzerError {
    const kind: ErrorKind
    const message: string
    const context: ErrorContext
    const cause: Option<Foreign>

    /**
     * The base constructor: a missing context is replaced by an empty one;
     * a given context is shared, not copied.
     */
    constructor(kind: ErrorKind, message: string, context: Option<ErrorContext>, cause: Option<Foreign>)
      ensures this.kind == kind && this.message == message && this.cause == cause
      ensures context.Some? ==> this.context == context.value
      ensures context.None? ==> fresh(this.context) && this.context.operation.None? && this.context.field.None?
                                && this.context.value.None? && this.context.statusCode.None?
                                && this.context.retryAfter.None? && this.context.additionalInfo.None?
    {
      this.kind := kind;
      this.message := message;
      this.cause := cause;
      if context.Some? {
        this.context := context.value;
      } else {
        this.context := new ErrorContext(None, None, None, None, None, None);
      }
    }

    /** `__str__`: the message, after the operation when the context names a non-empty one. */
    function ToString(): (r: string)
      reads this, context
      ensures Truthy(context.operation) ==> r == context.operation.value + ": " + message
      ensures !Truthy(context.operation) ==> r == message
      ensures |r| >= |message| && r[|r| - |message|..] == message
    {
      if Truthy(context.operation) then context.operation.value + ": " + message else message
    }
  }

  /**
   * `ValidationError(message, field, value, context, cause)`. Without a
   * context a new one holds the field and value; with one, the caller's
   * context is updated in place: a given field and a given value overwrite
   * the ones already there.
   */
  method NewValidationError(message: string, field: Option<string>, value: Option<Value>,
                            context: Option<ErrorContext>, cause: Option<Foreign>)
    returns (e: AnalyzerError)
    modifies if context.Some? then {context.value} else {}
    ensures fresh(e) && e.kind == ValidationFailure && e.message == message && e.cause == cause
    ensures context.Some? ==> e.context == context.value
    ensures context.Some? ==> e.context.field == (if field.Some? then field else old(context.value.field))
    ensures context.Some? ==> e.context.value == (if value.Some? then value else old(context.value.value))
    ensures context.Some? ==> e.context.operation == old(context.value.operation)
                              && e.context.statusCode == old(context.value.statusCode)
                              && e.context.retryAfter == old(context.value.retryAfter)
                              && e.context.additionalInfo == old(context.value.additionalInfo)
    ensures context.None? ==> fresh(e.context) && e.context.field == field && e.context.value == value
                              && e.context.operation.None? && e.context.statusCode.None?
                              && e.context.retryAfter.None? && e.context.additionalInfo.None?
  {
    var c: ErrorContext;
    if context.None? {
      c := new ErrorContext(None, field, value, None, None, None);
    } else {
      c := context.value;
      if field.Some? {
        c.field := field;
      }
    }
    if value.Some? {
      c.value := value;
    }
    e := new AnalyzerError(ValidationFailure, message, Some(c), cause);
  }

  /**
   * `APIError(message, status_code, context, cause)`: a given status code
   * overwrites the one in the caller's context; without a context a new one
   * holds just the status code.
   */
  method NewApiError(message: string, statusCode: Option<int>, context: Option<ErrorContext>, cause: Option<Foreign>)
    returns (e: AnalyzerError)
    modifies if context.Some? then {context.value} else {}
    ensures fresh(e) && e.kind == Api && e.message == message && e.cause == cause
    ensures context.Some? ==> e.context == context.value
    ensures context.Some? ==> e.context.statusCode == (if statusCode.Some? then statusCode else old(context.value.statusCode))
    ensures context.Some? ==> e.context.operation == old(context.value.operation)
                              && e.context.field == old(context.value.field)
                              && e.context.value == old(context.value.value)
                              && e.context.retryAfter == old(context.value.retryAfter)
                              && e.context.additionalInfo == old(context.value.additionalInfo)
    ensures context.None? ==> fresh(e.context) && e.context.statusCode == statusCode
                              && e.context.operation.None? && e.context.field.None? && e.context.value.None?
                              && e.context.retryAfter.None? && e.context.additionalInfo.None?
  {
    var c: ErrorContext;
    if context.None? {
      c := new ErrorContext(None, None, None, statusCode, None, None);
    } else {
      c := context.value;
      if statusCode.Some? {
        c.statusCode := statusCode;
      }
    }
    e := new AnalyzerError(Api, message, Some(c), cause);
  }
}
