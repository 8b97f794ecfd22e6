/**
 * The one-shot command endpoint of the web terminal
 * (public/api/terminal-exec.php): admin only; `init` opens a terminal
 * session in the PHP session; `exec` runs one command under a 30-second
 * timeout after the session check and the blocked-pattern screen.
 *
 * The PHP session, the activity_log table, the logger and the commands
 * handed to the shell are the fields of `TerminalEndpoint`. The clock,
 * uniqid(), escapeshellarg(), exec() and the twelve blocked-pattern
 * regular expressions are parameters.
 */
module TerminalExec {
  import opened Text
  import Logger

  /** The logged-in user, as Auth::getCurrentUser returns it. */
  datatype User = User(id: int, username: string, role: string)

  /** The decoded JSON body: `action`, `command` and `session_id` (absent keys as ""). */
  datatype Request = Request(action: string, command: string, sessionId: string)

  /** The JSON reply and its HTTP status. */
  datatype Response =
    | Failure(status: int, error: string)
    | Started(sessionId: string)
    | Ran(output: string, returnCode: int)

  /** An activity_log row. */
  datatype Activity = Activity(userId: int, action: string, description: string, ip: string)

  /** exec(): the output lines and the exit code of a shell command. */
  datatype Outcome = Outcome(lines: seq<string>, returnCode: int)

  /** The seconds of inactivity after which a terminal session expires. */
  const SessionTimeout := 1800

  /** The exit code timeout(1) returns when it kills the command. */
  const TimedOut := 124

  /** The text returned for a command: a timeout message, a generic message for silent failure, else the output. */
  function ReplyOutput(output: string, returnCode: int): (r: string)
    ensures returnCode == TimedOut ==> r == "Command timed out after 30 seconds"
    ensures returnCode != TimedOut && returnCode != 0 && (output == "" || output == "0") ==>
      r == "Command exited with code: " + IntToString(returnCode)
    ensures returnCode == 0 || (returnCode != TimedOut && !(output == "" || output == "0")) ==> r == output
  {
    if returnCode == TimedOut then "Command timed out after 30 seconds"
    else if returnCode != 0 && (output == "" || output == "0") then "Command exited with code: " + IntToString(returnCode)
    else output
  }

  /** The reply text is never empty for a failing command. */
  lemma FailureExplained(output: string, returnCode: int)
    requires returnCode != 0
    ensures ReplyOutput(output, returnCode) != ""
  {
    if returnCode != TimedOut && (output == "" || output == "0") {
      var code := IntToString(returnCode);
      assert ReplyOutput(output, returnCode)[0] == 'C';
    }
  }

  /** Whether some blocked pattern matches the command. */
  predicate Blocked(patterns: seq<string -> bool>, command: string) {
    exists i :: 0 <= i < |patterns| && patterns[i](command)
  }

  /** The shell line handed to exec(). */
  function FullCommand(command: string, quote: string -> string): string {
    "timeout 30 bash -c " + quote("cd /opt/serveros && " + command) + " 2>&1"
  }

  /** The warning logged for a blocked command. */
  function BlockedCall(command: string, user: User): (c: Logger.Call)
    ensures c.level == "warning"
  {
    Logger.Call("warning", "Blocked command attempt",
      [Logger.Field("type", Logger.JStr("command_blocked")), Logger.Field("command", Logger.JStr(Logger.Prefix(command, 500))),
       Logger.Field("user", Logger.JStr(user.username))])
  }

  /** A logger call together with the user id passed to it explicitly. */
  datatype UserCall = UserCall(call: Logger.Call, userId: int)

  class TerminalEndpoint {
    /** $_SESSION['terminal_session_id'] */
    var sessionId: Option<string>
    /** $_SESSION['terminal_session_time'] */
    var sessionTime: Option<int>
    /** Rows added to activity_log. */
    var activity: seq<Activity>
    /** Calls made to the logger, each with the current user's id. */
    var calls: seq<UserCall>
    /** Shell lines handed to exec(). */
    var executed: seq<string>

    constructor ()
      ensures sessionId.None? && sessionTime.None? && activity == [] && calls == [] && executed == []
    {
      sessionId, sessionTime := None, None;
      activity, calls, executed := [], [], [];
    }

    /** Whether the screen finds a blocked pattern: the loop over the patterns, stopping at the first match. */
    static method Screen(patterns: seq<string -> bool>, command: string) returns (blocked: bool)
      ensures blocked <==> Blocked(patterns, command)
    {
      for i := 0 to |patterns|
        invariant forall j :: 0 <= j < i ==> !patterns[j](command)
      {
        if patterns[i](command) {
          return true;
        }
      }
      return false;
    }

    /**
     * One request. Not logged in: 401; not an admin: 403; `init` stores a
     * new session id and the time; `exec` checks the command, the session
     * id and the session's age, refreshes the time, screens the trimmed
     * command, and only then runs it; anything else is an invalid action.
     */
    method Handle(user: Option<User>, request: Request, now: int, newId: string, ip: string,
                  patterns: seq<string -> bool>, quote: string -> string, run: string -> Outcome)
      returns (response: Response)
      modifies this
      ensures user.None? ==> response == Failure(401, "Unauthorized") && Unchanged()
      ensures user.Some? && user.value.role != "admin" ==> response == Failure(403, "Admin access required") && Unchanged()
      ensures user.Some? && user.value.role == "admin" && request.action == "init" ==> (response == Started(newId)
        && sessionId == Some(newId) && sessionTime == Some(now) && calls == old(calls) && executed == old(executed)
        && activity == old(activity) + [Activity(user.value.id, "terminal_session_start", "Started terminal session: " + newId, ip)])
      ensures user.Some? && user.value.role == "admin" && request.action != "init" && request.action != "exec" ==>
        response == Failure(200, "Invalid action") && Unchanged()
      ensures |executed| > |old(executed)| ==> (user.Some? && user.value.role == "admin" && request.action == "exec"
        && !(request.command == "" || request.command == "0") && old(Authentic(request.sessionId)) && !old(Expired(now))
        && !Blocked(patterns, PhpTrim(request.command))
        && executed == old(executed) + [FullCommand(PhpTrim(request.command), quote)])
      ensures executed == old(executed) || |executed| == |old(executed)| + 1
    {
      if user.None? {
        return Failure(401, "Unauthorized");
      }
      var u := user.value;
      if u.role != "admin" {
        return Failure(403, "Admin access required");
      }
      if request.action == "init" {
        sessionId := Some(newId);
        sessionTime := Some(now);
        activity := activity + [Activity(u.id, "terminal_session_start", "Started terminal session: " + newId, ip)];
        return Started(newId);
      }
      if request.action != "exec" {
        return Failure(200, "Invalid action");
      }
      response := Exec(u, request, now, ip, patterns, quote, run);
    }

    /** Whether the stored session id is present and equal to the non-empty one sent. */
    predicate Authentic(sent: string)
      reads this
    {
      !(sent == "" || sent == "0") && sessionId == Some(sent)
    }

    /** Whether the stored session time is more than 1800 seconds old. */
    predicate Expired(now: int)
      reads this
    {
      sessionTime.Some? && now - sessionTime.value > SessionTimeout
    }

    /** Nothing of the endpoint's state has changed. */
    twostate predicate Unchanged()
      reads this
    {
      sessionId == old(sessionId) && sessionTime == old(sessionTime) && activity == old(activity)
      && calls == old(calls) && executed == old(executed)
    }

    /** The `exec` action. */
    method Exec(u: User, request: Request, now: int, ip: string,
                patterns: seq<string -> bool>, quote: string -> string, run: string -> Outcome)
      returns (response: Response)
      modifies this
      ensures (request.command == "" || request.command == "0") ==> response == Failure(200, "No command provided") && Unchanged()
      ensures !(request.command == "" || request.command == "0") && !old(Authentic(request.sessionId)) ==>
        response == Failure(200, "Invalid session") && Unchanged()
      ensures !(request.command == "" || request.command == "0") && old(Authentic(request.sessionId)) && old(Expired(now)) ==>
        response == Failure(200, "Session expired. Please reconnect.") && Unchanged()
      ensures !(request.command == "" || request.command == "0") && old(Authentic(request.sessionId)) && !old(Expired(now)) ==>
        sessionId == old(sessionId) && sessionTime == Some(now)
      ensures var command := PhpTrim(request.command);
        (!(request.command == "" || request.command == "0") && old(Authentic(request.sessionId)) && !old(Expired(now))
         && Blocked(patterns, command)) ==> (response == Failure(200, "Command blocked for security reasons. This action has been logged.")
          && executed == old(executed) && calls == old(calls) + [UserCall(BlockedCall(command, u), u.id)]
          && activity == old(activity) + [Activity(u.id, "terminal_blocked", "BLOCKED command: " + Logger.Prefix(command, 200), ip)])
      ensures var command := PhpTrim(request.command);
        var full := FullCommand(command, quote);
        var out := run(full);
        var output := Join(out.lines, "\n");
        (!(request.command == "" || request.command == "0") && old(Authentic(request.sessionId)) && !old(Expired(now))
         && !Blocked(patterns, command)) ==> (response == Ran(ReplyOutput(output, out.returnCode), out.returnCode)
          && executed == old(executed) + [full]
          && calls == old(calls) + [UserCall(Logger.CommandCall(full, Some(output), out.returnCode), u.id)]
          && activity == old(activity) + [Activity(u.id, "terminal_command", "Executed: " + Logger.Prefix(command, 200), ip)])
    {
      if request.command == "" || request.command == "0" {
        return Failure(200, "No command provided");
      }
      if !Authentic(request.sessionId) {
        return Failure(200, "Invalid session");
      }
      if Expired(now) {
        return Failure(200, "Session expired. Please reconnect.");
      }
      sessionTime := Some(now);
      var command := PhpTrim(request.command);
      var blocked := Screen(patterns, command);
      if blocked {
        calls := calls + [UserCall(BlockedCall(command, u), u.id)];
        activity := activity + [Activity(u.id, "terminal_blocked", "BLOCKED command: " + Logger.Prefix(command, 200), ip)];
        return Failure(200, "Command blocked for security reasons. This action has been logged.");
      }
      activity := activity + [Activity(u.id, "terminal_command", "Executed: " + Logger.Prefix(command, 200), ip)];
      var full := FullCommand(command, quote);
      var out := run(full);
      executed := executed + [full];
      var output := Join(out.lines, "\n");
      calls := calls + [UserCall(Logger.CommandCall(full, Some(output), out.returnCode), u.id)];
      response := Ran(ReplyOutput(output, out.returnCode), out.returnCode);
    }
  }
}
