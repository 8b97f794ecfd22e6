/**
 * The global PHP error handler (src/ErrorHandler.php): what it hands to
 * the logger for a PHP error, an uncaught exception and a fatal error at
 * shutdown, and its mapping of error constants to names and levels.
 *
 * The static `$logger` becomes the flag `installed`; a logger call that
 * throws is the parameter `loggerThrows`, in which case the handler falls
 * back to a line in PHP's own error log.
 */
module ErrorHandling {
  import opened Text
  import Logger

  // PHP's error constants.
  const E_ERROR := 1
  const E_WARNING := 2
  const E_PARSE := 4
  const E_NOTICE := 8
  const E_CORE_ERROR := 16
  const E_CORE_WARNING := 32
  const E_COMPILE_ERROR := 64
  const E_COMPILE_WARNING := 128
  const E_USER_ERROR := 256
  const E_USER_WARNING := 512
  const E_USER_NOTICE := 1024
  const E_STRICT := 2048
  const E_RECOVERABLE_ERROR := 4096
  const E_DEPRECATED := 8192
  const E_USER_DEPRECATED := 16384
  const E_ALL := 32767

  /** The known constants and their names, index for index. */
  const Codes: seq<int> := [E_ERROR, E_WARNING, E_PARSE, E_NOTICE, E_CORE_ERROR, E_CORE_WARNING,
    E_COMPILE_ERROR, E_COMPILE_WARNING, E_USER_ERROR, E_USER_WARNING, E_USER_NOTICE, E_STRICT,
    E_RECOVERABLE_ERROR, E_DEPRECATED, E_USER_DEPRECATED]
  const Names: seq<string> := ["E_ERROR", "E_WARNING", "E_PARSE", "E_NOTICE", "E_CORE_ERROR", "E_CORE_WARNING",
    "E_COMPILE_ERROR", "E_COMPILE_WARNING", "E_USER_ERROR", "E_USER_WARNING", "E_USER_NOTICE", "E_STRICT",
    "E_RECOVERABLE_ERROR", "E_DEPRECATED", "E_USER_DEPRECATED"]

  /** getErrorType */
  function ErrorType(errno: int): string {
    if errno == E_ERROR then "E_ERROR"
    else if errno == E_WARNING then "E_WARNING"
    else if errno == E_PARSE then "E_PARSE"
    else if errno == E_NOTICE then "E_NOTICE"
    else if errno == E_CORE_ERROR then "E_CORE_ERROR"
    else if errno == E_CORE_WARNING then "E_CORE_WARNING"
    else if errno == E_COMPILE_ERROR then "E_COMPILE_ERROR"
    else if errno == E_COMPILE_WARNING then "E_COMPILE_WARNING"
    else if errno == E_USER_ERROR then "E_USER_ERROR"
    else if errno == E_USER_WARNING then "E_USER_WARNING"
    else if errno == E_USER_NOTICE then "E_USER_NOTICE"
    else if errno == E_STRICT then "E_STRICT"
    else if errno == E_RECOVERABLE_ERROR then "E_RECOVERABLE_ERROR"
    else if errno == E_DEPRECATED then "E_DEPRECATED"
    else if errno == E_USER_DEPRECATED then "E_USER_DEPRECATED"
    else "UNKNOWN"
  }

  /** Each known constant gets its own name, and exactly the other numbers get "UNKNOWN". */
  lemma ErrorTypeNames(errno: int)
    ensures forall i :: 0 <= i < |Codes| ==> ErrorType(Codes[i]) == Names[i]
    ensures ErrorType(errno) == "UNKNOWN" <==> errno !in Codes
  {
  }

  /** The constant a name stands for, 0 for any other text; the length narrows the candidates first. */
  function CodeOf(name: string): int {
    match |name|
    case 7 => if name == "E_ERROR" then E_ERROR else if name == "E_PARSE" then E_PARSE else 0
    case 8 => if name == "E_NOTICE" then E_NOTICE else if name == "E_STRICT" then E_STRICT else 0
    case 9 => if name == "E_WARNING" then E_WARNING else 0
    case 12 =>
      if name == "E_CORE_ERROR" then E_CORE_ERROR
      else if name == "E_USER_ERROR" then E_USER_ERROR
      else if name == "E_DEPRECATED" then E_DEPRECATED
      else 0
    case 13 => if name == "E_USER_NOTICE" then E_USER_NOTICE else 0
    case 14 => if name == "E_CORE_WARNING" then E_CORE_WARNING else if name == "E_USER_WARNING" then E_USER_WARNING else 0
    case 15 => if name == "E_COMPILE_ERROR" then E_COMPILE_ERROR else 0
    case 17 =>
      if name == "E_COMPILE_WARNING" then E_COMPILE_WARNING
      else if name == "E_USER_DEPRECATED" then E_USER_DEPRECATED
      else 0
    case 19 => if name == "E_RECOVERABLE_ERROR" then E_RECOVERABLE_ERROR else 0
    case _ => 0
  }

  /** Reading the name back gives the constant: getErrorType loses nothing on the known constants. */
  lemma ErrorTypeRoundTrip(errno: int)
    requires errno in Codes
    ensures CodeOf(ErrorType(errno)) == errno
  {
    var name := ErrorType(errno);
    assert name in Names by {
      ErrorTypeNames(errno);
      var i :| 0 <= i < |Codes| && Codes[i] == errno;
      assert name == Names[i];
    }
  }

  /** The names are distinct, so the name identifies the constant. */
  lemma ErrorTypeInjective(a: int, b: int)
    requires a in Codes && b in Codes && ErrorType(a) == ErrorType(b)
    ensures a == b
  {
    ErrorTypeRoundTrip(a);
    ErrorTypeRoundTrip(b);
  }

  /** The log level of an error: warnings, then notices, strict and deprecations as info, else error. */
  function LevelOf(errno: int): (level: string)
    ensures level == "warning" <==> errno == E_WARNING || errno == E_USER_WARNING
    ensures level == "info" <==> errno in {E_NOTICE, E_USER_NOTICE, E_STRICT, E_DEPRECATED, E_USER_DEPRECATED}
    ensures level == "warning" || level == "info" || level == "error"
  {
    if errno == E_WARNING || errno == E_USER_WARNING then "warning"
    else if errno == E_NOTICE || errno == E_USER_NOTICE || errno == E_STRICT
      || errno == E_DEPRECATED || errno == E_USER_DEPRECATED then "info"
    else "error"
  }

  /** A PHP error as the handler receives it. */
  datatype PhpError = PhpError(errno: int, message: string, file: string, line: int)

  /** "[TYPE] message in file on line N" */
  function ErrorMessage(e: PhpError): (m: string)
    ensures HasPrefix(m, "[" + ErrorType(e.errno) + "] ")
  {
    "[" + ErrorType(e.errno) + "] " + e.message + " in " + e.file + " on line " + IntToString(e.line)
  }

  /** The context of a handled error; `has_context` only when the caller passed a context. */
  function ErrorContext(e: PhpError, hasContext: bool): (ctx: seq<Logger.Field>)
    ensures Logger.Lookup(ctx, "has_context") == (if hasContext then Some(Logger.JBool(true)) else None)
    ensures Logger.Lookup(ctx, "error_code") == Some(Logger.JInt(e.errno))
  {
    var base := [Logger.Field("error_type", Logger.JStr(ErrorType(e.errno))), Logger.Field("error_code", Logger.JInt(e.errno)),
                 Logger.Field("file", Logger.JStr(e.file)), Logger.Field("line", Logger.JInt(e.line))];
    assert Logger.Lookup(base, "error_code") == Logger.Lookup(base[1..], "error_code") == Some(Logger.JInt(e.errno));
    assert Logger.Lookup(base, "has_context") == Logger.Lookup(base[1..], "has_context") == Logger.Lookup(base[2..], "has_context")
      == Logger.Lookup(base[3..], "has_context") == Logger.Lookup(base[4..], "has_context") == None;
    if hasContext then
      Logger.LookupSnoc(base, Logger.Field("has_context", Logger.JBool(true)), "has_context");
      Logger.LookupSnoc(base, Logger.Field("has_context", Logger.JBool(true)), "error_code");
      base + [Logger.Field("has_context", Logger.JBool(true))]
    else base
  }

  /** error_get_last() when it is not null. */
  datatype LastError = LastError(errorType: int, message: string, file: string, line: int)

  /** The kinds of error handleShutdown reports. */
  predicate Fatal(errorType: int) {
    errorType in {E_ERROR, E_CORE_ERROR, E_COMPILE_ERROR, E_PARSE, E_RECOVERABLE_ERROR}
  }

  /** The error-level call handleShutdown makes for a fatal error. */
  function ShutdownCall(e: LastError): (c: Logger.Call)
    ensures c.level == "error" && HasPrefix(c.message, "Fatal error: ")
  {
    Logger.Call("error", "Fatal error: " + e.message + " in " + e.file + " on line " + IntToString(e.line),
      [Logger.Field("error_type", Logger.JStr(ErrorType(e.errorType))), Logger.Field("error_code", Logger.JInt(e.errorType)),
       Logger.Field("file", Logger.JStr(e.file)), Logger.Field("line", Logger.JInt(e.line))])
  }

  /** The JSON body handleException sends in an API context. */
  datatype ApiFailure = ApiFailure(code: int, success: bool, error: string, message: string)

  /** An API context: a non-empty X-Requested-With header or "/api/" in the request URI. */
  predicate ApiContext(requestedWith: string, requestUri: string) {
    !(requestedWith == "" || requestedWith == "0") || Contains(requestUri, "/api/")
  }

  class ErrorHandler {
    /** Whether init() has obtained the logger (the static $logger is not null). */
    var installed: bool
    /** How many times the three handlers were registered. */
    var registrations: nat
    /** The error_reporting level. */
    var reporting: int
    /** Calls made to the logger, in order. */
    var calls: seq<Logger.Call>
    /** Lines written with error_log() as the fallback. */
    var errorLog: seq<string>

    constructor (reporting: int)
      ensures !installed && registrations == 0 && this.reporting == reporting && calls == [] && errorLog == []
    {
      installed, registrations, this.reporting := false, 0, reporting;
      calls, errorLog := [], [];
    }

    /** init: the first call installs the handlers and reports everything; later calls do nothing. */
    method Init()
      modifies this`installed, this`registrations, this`reporting
      ensures old(installed) ==> installed && registrations == old(registrations) && reporting == old(reporting)
      ensures !old(installed) ==> installed && registrations == old(registrations) + 1 && reporting == E_ALL
    {
      if installed {
        return;
      }
      installed := true;
      registrations := registrations + 1;
      reporting := E_ALL;
    }

    /**
     * handleError: an error suppressed with @ (error_reporting() is 0) is
     * ignored; any other goes to the logger at its level, or to error_log
     * when there is no logger or it throws. The result is always false, so
     * PHP's own handler runs too.
     */
    method HandleError(e: PhpError, hasContext: bool, currentReporting: int, loggerThrows: bool) returns (handled: bool)
      modifies this`calls, this`errorLog
      ensures !handled
      ensures currentReporting == 0 ==> calls == old(calls) && errorLog == old(errorLog)
      ensures currentReporting != 0 && installed && !loggerThrows ==> (errorLog == old(errorLog)
        && calls == old(calls) + [Logger.Call(LevelOf(e.errno), ErrorMessage(e), ErrorContext(e, hasContext))])
      ensures currentReporting != 0 && !(installed && !loggerThrows) ==> (calls == old(calls)
        && errorLog == old(errorLog) + ["[" + LevelOf(e.errno) + "] " + ErrorMessage(e)])
    {
      if currentReporting == 0 {
        return false;
      }
      var level := LevelOf(e.errno);
      var message := ErrorMessage(e);
      var context := ErrorContext(e, hasContext);
      if installed && !loggerThrows {
        calls := calls + [Logger.Call(level, message, context)];
      } else {
        errorLog := errorLog + ["[" + level + "] " + message];
      }
      return false;
    }

    /**
     * handleException: log the exception (or fall back to error_log), then
     * answer 500 with a JSON body in an API context and nothing otherwise.
     * `isError` says the throwable is an Error rather than an Exception:
     * Logger::exception declares an `Exception` parameter, so with a logger
     * installed the call raises a TypeError that `catch (Exception $e)`
     * does not catch, and the handler ends there, logging and answering
     * nothing.
     */
    method HandleException(ex: Logger.Exception, isError: bool, loggerThrows: bool, requestedWith: string, requestUri: string)
      returns (response: Option<ApiFailure>)
      modifies this`calls, this`errorLog
      ensures installed && isError ==> calls == old(calls) && errorLog == old(errorLog) && response.None?
      ensures installed && !isError && !loggerThrows ==> calls == old(calls) + [Logger.ExceptionCall(ex, [])] && errorLog == old(errorLog)
      ensures !installed ==> (calls == old(calls) && errorLog == old(errorLog)
        + ["Uncaught exception: " + ex.message + " in " + ex.file + " on line " + IntToString(ex.line)])
      ensures installed && !isError && loggerThrows ==> calls == old(calls) && errorLog == old(errorLog) + ["Exception: " + ex.message]
      ensures !(installed && isError) ==> (response.Some? <==> ApiContext(requestedWith, requestUri))
      ensures response.Some? ==> response.value == ApiFailure(500, false, "An internal error occurred. Please check the logs.", ex.message)
    {
      if installed && isError {
        return None;
      }
      if installed && loggerThrows {
        errorLog := errorLog + ["Exception: " + ex.message];
      } else if installed {
        calls := calls + [Logger.ExceptionCall(ex, [])];
      } else {
        errorLog := errorLog + ["Uncaught exception: " + ex.message + " in " + ex.file + " on line " + IntToString(ex.line)];
      }
      if ApiContext(requestedWith, requestUri) {
        response := Some(ApiFailure(500, false, "An internal error occurred. Please check the logs.", ex.message));
      } else {
        response := None;
      }
    }

    /** handleShutdown: only a fatal last error is reported, at error level. */
    method HandleShutdown(last: Option<LastError>, loggerThrows: bool)
      modifies this`calls, this`errorLog
      ensures last.None? || !Fatal(last.value.errorType) ==> calls == old(calls) && errorLog == old(errorLog)
      ensures last.Some? && Fatal(last.value.errorType) && installed && !loggerThrows ==>
        calls == old(calls) + [ShutdownCall(last.value)] && errorLog == old(errorLog)
      ensures last.Some? && Fatal(last.value.errorType) && !(installed && !loggerThrows) ==>
        calls == old(calls) && errorLog == old(errorLog) + [ShutdownCall(last.value).message]
    {
      if last.Some? && Fatal(last.value.errorType) {
        var c := ShutdownCall(last.value);
        if installed && !loggerThrows {
          calls := calls + [c];
        } else {
          errorLog := errorLog + [c.message];
        }
      }
    }
  }
}
