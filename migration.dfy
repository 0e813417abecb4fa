/**
 * errors/migration.py: converters from the exceptions older code raises to
 * analyzer errors.
 */
module Migration {
  import opened Wrappers
  import opened Text
  import opened Validation
  import opened ErrorContexts
  import opened Errors
  import opened Handlers

  /** `getattr(exception, "status", None)` */
  function StatusOf(exception: Foreign): Option<int> {
    if exception.hasStatus then exception.status else None
  }

  /**
   * `convert_github_exception`: the same table as the handler, so both turn
   * one exception into the same class and message.
   */
  method ConvertGithubException(exception: Foreign, operation: string) returns (e: AnalyzerError)
    ensures fresh(e) && fresh(e.context)
    ensures (e.kind, e.message) == ClassifyGithub(StatusOf(exception), exception.text, operation)
    ensures (e.kind, e.message) == ClassifyGithub(EffectiveStatus(exception, None), exception.text, operation)
    ensures e.context.operation == Some(operation) && e.context.statusCode == StatusOf(exception)
    ensures e.cause == Some(exception)
  {
    var status := StatusOf(exception);
    var context := CreateApiContext(operation, status, None, []);
    var (kind, message) := ClassifyGithub(status, exception.text, operation);
    e := Build(kind, message, context, Some(exception));
  }

  /** The message of `convert_network_exception`, chosen by the exception's class. */
  function NetworkMessageByClass(exception: Foreign, operation: string): (r: string)
    ensures exception.isTimeout ==>
      r == "Request timeout during " + operation + ". Please check your connection and try again."
    ensures !exception.isTimeout && exception.isConnectionError ==>
      r == "Connection error during " + operation + ". Please check your internet connection."
    ensures !exception.isTimeout && !exception.isConnectionError ==>
      r == "Network error during " + operation + ": " + exception.text
  {
    if exception.isTimeout then
      "Request timeout during " + operation + ". Please check your connection and try again."
    else if exception.isConnectionError then
      "Connection error during " + operation + ". Please check your internet connection."
    else "Network error during " + operation + ": " + exception.text
  }

  /** `convert_network_exception` */
  method ConvertNetworkException(exception: Foreign, operation: string) returns (e: AnalyzerError)
    ensures fresh(e) && fresh(e.context)
    ensures e.kind == Network && e.message == NetworkMessageByClass(exception, operation)
    ensures e.context.operation == Some(operation) && e.cause == Some(exception)
  {
    var context := CreateNetworkContext(operation, []);
    e := new AnalyzerError(Network, NetworkMessageByClass(exception, operation), Some(context), Some(exception));
  }

  /**
   * The class-based converter and the text-based handler pick the same
   * message when the text agrees with the class, and can disagree otherwise:
   * a timeout whose text never says "timeout" is reported by the handler as a
   * connection error or a plain network error.
   */
  lemma {:induction false} NetworkConvertersAgree(exception: Foreign, operation: string)
    ensures exception.isTimeout && Contains(Lower(exception.text), "timeout") ==>
      NetworkMessageByClass(exception, operation) == NetworkMessageByText(exception.text, operation)
    ensures !exception.isTimeout && !exception.isConnectionError
            && !Contains(Lower(exception.text), "timeout") && !Contains(Lower(exception.text), "connection") ==>
      NetworkMessageByClass(exception, operation) == NetworkMessageByText(exception.text, operation)
    ensures exception.isTimeout && !Contains(Lower(exception.text), "timeout") ==>
      NetworkMessageByClass(exception, operation) != NetworkMessageByText(exception.text, operation)
  {
    var byClass := NetworkMessageByClass(exception, operation);
    var byText := NetworkMessageByText(exception.text, operation);
    if exception.isTimeout && !Contains(Lower(exception.text), "timeout") {
      assert byClass[0] == 'R';
      assert byText[0] == 'C' || byText[0] == 'N';
    }
  }

  /** `convert_value_error`: the same conversion as the handler's validation path. */
  method ConvertValueError(exception: Foreign, field: Option<string>, operation: Option<string>)
    returns (e: AnalyzerError)
    ensures fresh(e) && fresh(e.context)
    ensures e.kind == ValidationFailure && e.message == exception.text
    ensures e.context.field == Some(OrDefault(field, "unknown")) && e.context.operation == operation
    ensures e.cause == Some(exception)
  {
    e := HandleValidationException(exception, field, operation);
  }

  /** `convert_config_error`; the source's default operation is "configuration". */
  method ConvertConfigError(exception: Foreign, operation: string) returns (e: AnalyzerError)
    ensures fresh(e) && fresh(e.context)
    ensures e.kind == Configuration && e.message == exception.text
    ensures e.context.field == Some("configuration") && e.context.operation == Some(operation)
    ensures e.cause == Some(exception)
    ensures FormatErrorMessage(e) == "Configuration Error: " + exception.text
  {
    var context := CreateValidationContext("configuration", None, Some(operation), []);
    e := new AnalyzerError(Configuration, exception.text, Some(context), Some(exception));
  }

  /**
   * `create_legacy_validation_error`: the field is always recorded (as
   * "unknown" when none is given), so the formatted message always names it.
   */
  method CreateLegacyValidationError(message: string, field: Option<string>) returns (e: AnalyzerError)
    ensures fresh(e) && fresh(e.context)
    ensures e.kind == ValidationFailure && e.message == message && e.cause.None?
    ensures e.context.field == Some(OrDefault(field, "unknown")) && e.context.operation.None?
    ensures FormatErrorMessage(e) == "Validation Error (" + OrDefault(field, "unknown") + "): " + message
    ensures GetErrorTip(e) == Some("Tip: Check the " + OrDefault(field, "unknown") + " value is valid")
  {
    var context := CreateValidationContext(OrDefault(field, "unknown"), None, None, []);
    e := NewValidationError(message, None, None, Some(context), None);
  }
}
