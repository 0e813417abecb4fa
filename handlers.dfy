/**
 * errors/handlers.py: turning foreign exceptions into analyzer errors, and
 * rendering analyzer errors for the user.
 */
module Handlers {
  import opened Wrappers
  import opened Text
  import opened Validation
  import opened ErrorContexts
  import opened Errors
  import GitHubClient

  /** `value or default` on an optional string. */
  function OrDefault(s: Option<string>, default: string): (r: string)
    ensures Truthy(s) ==> r == s.value
    ensures !Truthy(s) ==> r == default
  {
    if Truthy(s) then s.value else default
  }

  predicate MentionsRateLimit(text: string) {
    Contains(Lower(text), "rate limit")
  }

  /**
   * The class and message a GitHub status maps to. The handler and the
   * migration converter share this table, and its messages are exactly the
   * ones the PyGithub client raises as `ValueError`s.
   */
  function ClassifyGithub(status: Option<int>, text: string, operation: string): (r: (ErrorKind, string))
    ensures status.Some? ==> r.1 == GitHubClient.HandleGithubException(status.value, text, operation)
    ensures status.None? ==> r == (Api, "GitHub API error during " + operation + ": " + text)
    ensures r.0 == RateLimit <==> status == Some(429) || (status == Some(403) && MentionsRateLimit(text))
    ensures r.0 == Authentication <==> status == Some(401) || (status == Some(403) && !MentionsRateLimit(text))
    ensures r.0 == NotFound <==> status == Some(404)
    ensures r.0 == ValidationFailure <==> status == Some(422)
    ensures r.0 == Api <==> status !in {Some(401), Some(403), Some(404), Some(422), Some(429)}
  {
    if status == Some(401) then (Authentication, GitHubClient.InvalidTokenMessage)
    else if status == Some(403) then
      if MentionsRateLimit(text) then (RateLimit, GitHubClient.RateLimitMessage)
      else (Authentication, GitHubClient.ForbiddenMessage)
    else if status == Some(404) then (NotFound, GitHubClient.NotFoundMessage)
    else if status == Some(422) then (ValidationFailure, "Invalid request: " + text)
    else if status == Some(429) then (RateLimit, GitHubClient.RateLimitMessage)
    else (Api, "GitHub API error during " + operation + ": " + text)
  }

  /** The status `handle_github_exception` goes by: the one passed, else the exception's own. */
  function EffectiveStatus(exception: Foreign, statusCode: Option<int>): Option<int> {
    if statusCode.None? && exception.hasStatus then exception.status else statusCode
  }

  /** Builds an error of the given kind over `context`, through the constructor that kind uses. */
  method Build(kind: ErrorKind, message: string, context: ErrorContext, cause: Option<Foreign>) returns (e: AnalyzerError)
    modifies context
    ensures context.field == old(context.field) && context.value == old(context.value)
    ensures context.operation == old(context.operation) && context.statusCode == old(context.statusCode)
    ensures context.retryAfter == old(context.retryAfter) && context.additionalInfo == old(context.additionalInfo)
    ensures fresh(e) && e.kind == kind && e.message == message && e.context == context && e.cause == cause
  {
    if kind == ValidationFailure {
      e := NewValidationError(message, None, None, Some(context), cause);
    } else {
      e := new AnalyzerError(kind, message, Some(context), cause);
    }
  }

  /** `ErrorHandler.handle_github_exception` */
  method HandleGithubException(exception: Foreign, operation: string, statusCode: Option<int>)
    returns (e: AnalyzerError)
    ensures fresh(e) && fresh(e.context)
    ensures (e.kind, e.message) == ClassifyGithub(EffectiveStatus(exception, statusCode), exception.text, operation)
    ensures e.context.operation == Some(operation) && e.context.statusCode == EffectiveStatus(exception, statusCode)
    ensures statusCode.Some? ==> e.context.statusCode == statusCode
    ensures statusCode.None? && !exception.hasStatus ==> e.context.statusCode.None?
    ensures e.context.field.None? && e.context.retryAfter.None? && e.context.additionalInfo.None?
    ensures e.cause == Some(exception)
  {
    var context := CreateApiContext(operation, statusCode, None, []);
    var status := statusCode;
    if status.None? && exception.hasStatus {
      status := exception.status;
      context.statusCode := status;
    }
    var (kind, message) := ClassifyGithub(status, exception.text, operation);
    e := Build(kind, message, context, Some(exception));
  }

  /** The message of `handle_network_exception`, chosen by the exception's text. */
  function NetworkMessageByText(text: string, operation: string): (r: string)
    ensures Contains(Lower(text), "timeout") ==>
      r == "Request timeout during " + operation + ". Please check your connection and try again."
    ensures !Contains(Lower(text), "timeout") && Contains(Lower(text), "connection") ==>
      r == "Connection error during " + operation + ". Please check your internet connection."
    ensures !Contains(Lower(text), "timeout") && !Contains(Lower(text), "connection") ==>
      r == "Network error during " + operation + ": " + text
  {
    if Contains(Lower(text), "timeout") then
      "Request timeout during " + operation + ". Please check your connection and try again."
    else if Contains(Lower(text), "connection") then
      "Connection error during " + operation + ". Please check your internet connection."
    else "Network error during " + operation + ": " + text
  }

  /** `ErrorHandler.handle_network_exception` */
  method HandleNetworkException(exception: Foreign, operation: string) returns (e: AnalyzerError)
    ensures fresh(e) && fresh(e.context)
    ensures e.kind == Network && e.message == NetworkMessageByText(exception.text, operation)
    ensures e.context.operation == Some(operation) && e.context.statusCode.None? && e.context.field.None?
    ensures e.cause == Some(exception)
  {
    var context := CreateNetworkContext(operation, []);
    e := new AnalyzerError(Network, NetworkMessageByText(exception.text, operation), Some(context), Some(exception));
  }

  /** `ErrorHandler.handle_validation_exception`: an absent or empty field is recorded as "unknown". */
  method HandleValidationException(exception: Foreign, field: Option<string>, operation: Option<string>)
    returns (e: AnalyzerError)
    ensures fresh(e) && fresh(e.context)
    ensures e.kind == ValidationFailure && e.message == exception.text
    ensures e.context.field == Some(OrDefault(field, "unknown")) && e.context.operation == operation
    ensures e.context.value.None? && e.context.statusCode.None?
    ensures e.cause == Some(exception)
  {
    var context := CreateValidationContext(OrDefault(field, "unknown"), None, operation, []);
    e := NewValidationError(exception.text, None, None, Some(context), Some(exception));
  }

  // ---------------------------------------------------------------- handle_error

  /** An exception as `handle_error` receives it: one of ours, or a foreign one. */
  datatype Thrown = Ours(error: AnalyzerError) | Other(foreign: Foreign)

  /**
   * The class and message `handle_error` gives a foreign exception: a
   * `status` attribute makes it a GitHub error; otherwise "timeout" or
   * "connection" in its text a network error; otherwise a `ValueError` a
   * validation error; anything else a base error.
   */
  function Dispatch(f: Foreign, operation: Option<string>): (r: (ErrorKind, string))
    ensures f.hasStatus ==> r == ClassifyGithub(f.status, f.text, OrDefault(operation, "unknown operation"))
    ensures r.0 == Network <==>
      !f.hasStatus && (Contains(Lower(f.text), "timeout") || Contains(Lower(f.text), "connection"))
    ensures r.0 == Base <==>
      !f.hasStatus && !Contains(Lower(f.text), "timeout") && !Contains(Lower(f.text), "connection") && !f.isValueError
    ensures (&& !f.hasStatus && !Contains(Lower(f.text), "timeout") && !Contains(Lower(f.text), "connection")
             && f.isValueError)
            ==> r == (ValidationFailure, f.text)
    ensures r.0 == Network ==> r.1 == NetworkMessageByText(f.text, OrDefault(operation, "network operation"))
    ensures r.0 == Base ==> r.1 == "Unexpected error: " + f.text
    ensures r.0 != Configuration && r.0 != CacheFailure
  {
    if f.hasStatus then ClassifyGithub(f.status, f.text, OrDefault(operation, "unknown operation"))
    else if Contains(Lower(f.text), "timeout") || Contains(Lower(f.text), "connection") then
      (Network, NetworkMessageByText(f.text, OrDefault(operation, "network operation")))
    else if f.isValueError then (ValidationFailure, f.text)
    else (Base, "Unexpected error: " + f.text)
  }

  /**
   * `handle_error`: an analyzer error is returned as it is, so handling an
   * already handled error changes nothing; a foreign one is converted as
   * `Dispatch` says.
   */
  method HandleError(error: Thrown, operation: Option<string>) returns (e: AnalyzerError)
    ensures error.Ours? ==> e == error.error
    ensures error.Other? ==> fresh(e) && (e.kind, e.message) == Dispatch(error.foreign, operation)
                             && e.cause == Some(error.foreign)
    ensures error.Other? && error.foreign.hasStatus ==>
      e.context.operation == Some(OrDefault(operation, "unknown operation"))
    ensures error.Other? && Dispatch(error.foreign, operation).0 == Network ==>
      e.context.operation == Some(OrDefault(operation, "network operation"))
    ensures error.Other? && Dispatch(error.foreign, operation).0 == ValidationFailure && !error.foreign.hasStatus ==>
      e.context.field == Some("unknown") && e.context.operation == operation
    ensures error.Other? && Dispatch(error.foreign, operation).0 == Base ==>
      e.context.operation == operation && e.context.field.None? && e.context.statusCode.None?
  {
    if error.Ours? {
      return error.error;
    }
    var f := error.foreign;
    if f.hasStatus {
      e := HandleGithubException(f, OrDefault(operation, "unknown operation"), None);
    } else if Contains(Lower(f.text), "timeout") || Contains(Lower(f.text), "connection") {
      e := HandleNetworkException(f, OrDefault(operation, "network operation"));
    } else if f.isValueError {
      e := HandleValidationException(f, None, operation);
    } else {
      var context := new ErrorContext(operation, None, None, None, None, None);
      e := new AnalyzerError(Base, "Unexpected error: " + f.text, Some(context), Some(f));
    }
  }

  // ---------------------------------------------------------------- display

  /** `format_error_message`: a label for the class, then the message. */
  function FormatErrorMessage(e: AnalyzerError): (r: string)
    reads e, e.context
    ensures |r| > |e.message| && r[|r| - |e.message|..] == e.message
    ensures e.kind == Authentication ==> r == "Authentication Error: " + e.message
    ensures e.kind == RateLimit ==> r == "Rate Limit Error: " + e.message
    ensures e.kind == NotFound ==> r == "Not Found Error: " + e.message
    ensures e.kind == Network ==> r == "Network Error: " + e.message
    ensures e.kind == ValidationFailure && Truthy(e.context.field) ==>
      r == "Validation Error (" + e.context.field.value + "): " + e.message
    ensures e.kind == ValidationFailure && !Truthy(e.context.field) ==> r == "Validation Error: " + e.message
    ensures e.kind == Configuration ==> r == "Configuration Error: " + e.message
    ensures e.kind == Api ==> r == "API Error: " + e.message
    ensures e.kind == CacheFailure ==> r == "Cache Error: " + e.message
    ensures e.kind == Base ==> r == "Error: " + e.message
  {
    match e.kind
    case Authentication => "Authentication Error: " + e.message
    case RateLimit => "Rate Limit Error: " + e.message
    case NotFound => "Not Found Error: " + e.message
    case Network => "Network Error: " + e.message
    case ValidationFailure =>
      if Truthy(e.context.field) then "Validation Error (" + e.context.field.value + "): " + e.message
      else "Validation Error: " + e.message
    case Configuration => "Configuration Error: " + e.message
    case Api => "API Error: " + e.message
    case CacheFailure => "Cache Error: " + e.message
    case Base => "Error: " + e.message
  }

  const AuthenticationTip := "Tip: Set GITHUB_TOKEN environment variable or use --token option"
  const RateLimitTip := "Tip: Wait a few minutes before trying again, " + "or use a personal access token for higher limits"
  const NotFoundTip := "Tip: Check the username or organization name is correct"
  const NetworkTip := "Tip: Check your internet connection and try again"
  const InputTip := "Tip: Check your input values are valid"
  const ConfigurationTip := "Tip: Check your configuration settings"
  const ApiTip := "Tip: Check the GitHub API status and try again later"
  const CacheTip := "Tip: Try clearing the cache with --no-cache option"

  /** The tip for an error of class `kind` whose context holds `field`. */
  function TipFor(kind: ErrorKind, field: Option<string>): (r: Option<string>)
    ensures r.None? <==> kind == Base
    ensures kind == Authentication ==> r == Some(AuthenticationTip)
    ensures kind == RateLimit ==> r == Some(RateLimitTip)
    ensures kind == NotFound ==> r == Some(NotFoundTip)
    ensures kind == Network ==> r == Some(NetworkTip)
    ensures kind == ValidationFailure && Truthy(field) ==> r == Some("Tip: Check the " + field.value + " value is valid")
    ensures kind == ValidationFailure && !Truthy(field) ==> r == Some(InputTip)
    ensures kind == Configuration ==> r == Some(ConfigurationTip)
    ensures kind == Api ==> r == Some(ApiTip)
    ensures kind == CacheFailure ==> r == Some(CacheTip)
  {
    match kind
    case Authentication => Some(AuthenticationTip)
    case RateLimit => Some(RateLimitTip)
    case NotFound => Some(NotFoundTip)
    case Network => Some(NetworkTip)
    case ValidationFailure =>
      if Truthy(field) then Some("Tip: Check the " + field.value + " value is valid")
      else Some(InputTip)
    case Configuration => Some(ConfigurationTip)
    case Api => Some(ApiTip)
    case CacheFailure => Some(CacheTip)
    case Base => None
  }

  /** `get_error_tip`: every subclass has a tip; the base class has none. */
  function GetErrorTip(e: AnalyzerError): (r: Option<string>)
    reads e, e.context
    ensures r.None? <==> e.kind == Base
    ensures e.kind == ValidationFailure && Truthy(e.context.field) ==>
      r == Some("Tip: Check the " + e.context.field.value + " value is valid")
    ensures r == TipFor(e.kind, e.context.field)
  {
    TipFor(e.kind, e.context.field)
  }

  // ---------------------------------------------------------------- decorator

  /** What the decorated function did. */
  datatype Call<T> = Returned(value: T) | Threw(thrown: Thrown)

  /** What the wrapper does: return the value, return the converted error, or raise it. */
  datatype Wrapped<T> = Value(value: T) | ReturnedError(error: AnalyzerError) | RaisedError(error: AnalyzerError)

  /**
   * The wrapper `error_handler(operation, reraise)` puts around a function:
   * a result passes through; an exception is converted with `handle_error`
   * and raised when `reraise` is set, returned otherwise.
   */
  method ErrorHandlerWrapper<T>(call: Call<T>, operation: string, reraise: bool) returns (r: Wrapped<T>)
    ensures call.Returned? ==> r == Value(call.value)
    ensures call.Threw? ==> !r.Value? && (r.RaisedError? <==> reraise)
    ensures call.Threw? && call.thrown.Ours? ==> r.error == call.thrown.error
    ensures call.Threw? && call.thrown.Other? ==>
      fresh(r.error) && (r.error.kind, r.error.message) == Dispatch(call.thrown.foreign, Some(operation))
  {
    if call.Returned? {
      return Value(call.value);
    }
    var converted := HandleError(call.thrown, Some(operation));
    if reraise {
      return RaisedError(converted);
    }
    return ReturnedError(converted);
  }
}
