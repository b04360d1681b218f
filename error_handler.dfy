/**
 * The back end's last-resort error handler: it turns an error into the
 * status and JSON body of the response. The environment name (`NODE_ENV`)
 * is a parameter; logging is left out.
 */
module ErrorHandler {
  import opened Common

  const InternalError: string := "Internal Server Error"

  /** What the handler reads of an error: `statusCode` is 0 when it is missing, as JavaScript's `||` treats both alike. */
  datatype AppError = AppError(name: string, message: string, statusCode: int, stack: Option<string>)

  /** The response: its status, and the body's `success`, `error` and optional `stack`. */
  datatype ErrorResponse = ErrorResponse(status: int, success: bool, error: string, stack: Option<string>)

  /** The status and message for the three recognised error names, if the name is one of them. */
  function NamedError(name: string): Option<(int, string)>
  {
    if name == "ValidationError" then Some((400, "Validation Error"))
    else if name == "UnauthorizedError" then Some((401, "Unauthorized"))
    else if name == "CastError" then Some((400, "Invalid ID format"))
    else None
  }

  /** `errorHandler`. */
  function HandleError(err: AppError, nodeEnv: string): (r: ErrorResponse)
    ensures !r.success
    ensures NamedError(err.name).Some? ==> r.status == NamedError(err.name).value.0
    ensures NamedError(err.name).None? ==> r.status == (if err.statusCode != 0 then err.statusCode else 500)
    ensures nodeEnv == "production" && r.status == 500 ==> r.error == InternalError
    ensures !(nodeEnv == "production" && r.status == 500) ==>
      r.error == (if NamedError(err.name).Some? then NamedError(err.name).value.1
                  else if err.message != "" then err.message else InternalError)
    ensures r.stack.Some? <==> nodeEnv == "development" && err.stack.Some?
    ensures r.stack.Some? ==> r.stack == err.stack
  {
    var statusCode := if err.statusCode != 0 then err.statusCode else 500;
    var message := if err.message != "" then err.message else InternalError;
    var named := NamedError(err.name);
    var status := if named.Some? then named.value.0 else statusCode;
    var text := if named.Some? then named.value.1 else message;
    var shown := if nodeEnv == "production" && status == 500 then InternalError else text;
    ErrorResponse(status, false, shown, if nodeEnv == "development" then err.stack else None)
  }

  /**
   * The three recognised names fix the answer whatever the status code and
   * message of the error: 400 'Validation Error', 401 'Unauthorized' and 400
   * 'Invalid ID format'.
   */
  lemma NamedErrorsOverride(message: string, statusCode: int, stack: Option<string>, nodeEnv: string)
    ensures var r := HandleError(AppError("ValidationError", message, statusCode, stack), nodeEnv);
      r.status == 400 && r.error == "Validation Error"
    ensures var r := HandleError(AppError("UnauthorizedError", message, statusCode, stack), nodeEnv);
      r.status == 401 && r.error == "Unauthorized"
    ensures var r := HandleError(AppError("CastError", message, statusCode, stack), nodeEnv);
      r.status == 400 && r.error == "Invalid ID format"
  {
  }

  /**
   * In production nothing of a server error leaks: every 500 says only
   * 'Internal Server Error' and carries no stack, and an error with neither
   * a code nor a recognised name always answers so.
   */
  lemma ProductionHidesServerErrors(err: AppError)
    ensures var r := HandleError(err, "production");
      && (r.status == 500 ==> r.error == InternalError && r.stack.None?)
      && (NamedError(err.name).None? && (err.statusCode == 0 || err.statusCode == 500) ==>
            r == ErrorResponse(500, false, InternalError, None))
  {
  }

  /** In every environment an error with its own non-500 code keeps its status and message. */
  lemma ClientErrorsKeepMessage(err: AppError, nodeEnv: string)
    requires NamedError(err.name).None? && err.statusCode != 0 && err.statusCode != 500 && err.message != ""
    ensures HandleError(err, nodeEnv).status == err.statusCode
    ensures HandleError(err, nodeEnv).error == err.message
  {
  }
}
