/**
 * The application logger (src/Logger.php): the log-filter query builder
 * shared by getLogs and getLogCount, the three sinks one log() call writes
 * (the system_logs table, the day's log file and, for errors, PHP's
 * error_log), and the context arrays logCommand, logService,
 * logPageAccess, logUpdate and exception build.
 *
 * The clock, the client address and the session are an `Env` parameter;
 * json_encode is the parameter `encode`; a failing INSERT is the
 * parameter `dbError`.
 */
module Logger {
  import opened Text

  // ------------------------------------------------------------------ PHP arrays as JSON

  /** A context value: what json_encode receives. */
  datatype Json = JStr(s: string) | JInt(i: int) | JBool(b: bool) | JObject(fields: seq<Field>)

  /** One key => value pair of an associative array, in insertion order. */
  datatype Field = Field(key: string, value: Json)

  /** $array[$key], the first pair with that key. */
  function Lookup(a: seq<Field>, key: string): Option<Json>
    decreases |a|
  {
    if a == [] then None else if a[0].key == key then Some(a[0].value) else Lookup(a[1..], key)
  }

  /** Appending a pair: a key already present keeps its value, otherwise the new pair decides. */
  lemma {:induction false} LookupSnoc(a: seq<Field>, f: Field, key: string)
    ensures Lookup(a + [f], key) == if Lookup(a, key).Some? then Lookup(a, key)
      else if f.key == key then Some(f.value) else None
    decreases |a|
  {
    if a == [] {
      assert [] + [f] == [f];
      assert [f][1..] == [];
    } else {
      assert (a + [f])[1..] == a[1..] + [f];
      LookupSnoc(a[1..], f, key);
    }
  }

  /** $array[$key] = $value: an existing key keeps its place, a new key goes last. */
  function Put(a: seq<Field>, key: string, value: Json): (r: seq<Field>)
    ensures |r| == if Lookup(a, key).Some? then |a| else |a| + 1
    decreases |a|
  {
    if a == [] then [Field(key, value)]
    else if a[0].key == key then [Field(key, value)] + a[1..]
    else [a[0]] + Put(a[1..], key, value)
  }

  /** After a put the key reads back the value and every other key reads as before. */
  lemma {:induction false} PutLookup(a: seq<Field>, key: string, value: Json, other: string)
    ensures Lookup(Put(a, key, value), key) == Some(value)
    ensures other != key ==> Lookup(Put(a, key, value), other) == Lookup(a, other)
    decreases |a|
  {
    if a != [] && a[0].key != key {
      PutLookup(a[1..], key, value, other);
      assert Put(a, key, value)[1..] == Put(a[1..], key, value);
    }
  }

  /** array_merge of arrays with string keys: the pairs of `b` are put into `a` one after another. */
  function Merge(a: seq<Field>, b: seq<Field>): seq<Field>
    decreases |b|
  {
    if b == [] then a else Put(Merge(a, b[..|b| - 1]), b[|b| - 1].key, b[|b| - 1].value)
  }

  /** The last value `b` gives a key, if any. */
  function LookupLast(b: seq<Field>, key: string): Option<Json>
    decreases |b|
  {
    if b == [] then None
    else if b[|b| - 1].key == key then Some(b[|b| - 1].value)
    else LookupLast(b[..|b| - 1], key)
  }

  /** In a merge the later array wins: a key of `b` reads its last value there, any other key reads as in `a`. */
  lemma {:induction false} MergeLookup(a: seq<Field>, b: seq<Field>, key: string)
    ensures LookupLast(b, key).Some? ==> Lookup(Merge(a, b), key) == LookupLast(b, key)
    ensures LookupLast(b, key).None? ==> Lookup(Merge(a, b), key) == Lookup(a, key)
    decreases |b|
  {
    if b != [] {
      var x := b[|b| - 1];
      MergeLookup(a, b[..|b| - 1], key);
      PutLookup(Merge(a, b[..|b| - 1]), x.key, x.value, key);
    }
  }

  // ------------------------------------------------------------------ log()

  /** The request around a log call: the clock, $_SERVER['REMOTE_ADDR'] and $_SESSION['user_id']. */
  datatype Env = Env(timestamp: string, remoteAddr: Option<string>, sessionUser: Option<int>)

  /** A system_logs row. */
  datatype Entry = Entry(level: string, message: string, contextJson: Option<string>, userId: Option<int>, ip: string)

  /** What one log() call records: an explicit user id wins over the session's, an empty context is stored as NULL. */
  function EntryOf(level: string, message: string, context: seq<Field>, userId: Option<int>, env: Env,
                   encode: Json -> string): (e: Entry)
    ensures userId.Some? ==> e.userId == userId
    ensures userId.None? ==> e.userId == env.sessionUser
    ensures e.contextJson.None? <==> context == []
    ensures e.ip == if env.remoteAddr.Some? then env.remoteAddr.value else "unknown"
    ensures e.level == level && e.message == message
  {
    var user := if userId.Some? then userId else env.sessionUser;
    var json := if context == [] then None else Some(encode(JObject(context)));
    Entry(level, message, json, user, if env.remoteAddr.Some? then env.remoteAddr.value else "unknown")
  }

  /** The line appended to the day's log file. */
  function FileLine(e: Entry, timestamp: string): string {
    "[" + timestamp + "] [" + ToUpper(e.level) + "] " + e.message
      + " | IP: " + e.ip
      + " | User: " + (if e.userId.Some? then IntToString(e.userId.value) else "system")
      + " | Context: " + (if e.contextJson.Some? then e.contextJson.value else "{}") + "\n"
  }

  lemma NoNewlineInNumber(i: int)
    ensures '\n' !in IntToString(i)
  {
    var r := NatToString(if i < 0 then -i else i);
    assert forall k :: 0 <= k < |r| ==> r[k] != '\n';
  }

  lemma NoNewlineInUpper(s: string)
    requires '\n' !in s
    ensures '\n' !in ToUpper(s)
  {
    var u := ToUpper(s);
    assert forall k :: 0 <= k < |u| ==> u[k] == UpperChar(s[k]) && s[k] != '\n';
  }

  /**
   * A file entry is exactly one line, ending in a newline, as long as the
   * level, message, address, clock and encoded context hold no newline.
   */
  lemma FileLineIsOneLine(e: Entry, timestamp: string)
    requires '\n' !in e.level && '\n' !in e.message && '\n' !in e.ip && '\n' !in timestamp
    requires e.contextJson.Some? ==> '\n' !in e.contextJson.value
    ensures Count(FileLine(e, timestamp), '\n') == 1
    ensures FileLine(e, timestamp)[|FileLine(e, timestamp)| - 1] == '\n'
  {
    NoNewlineInUpper(e.level);
    var user := if e.userId.Some? then IntToString(e.userId.value) else "system";
    if e.userId.Some? {
      NoNewlineInNumber(e.userId.value);
    }
    var json := if e.contextJson.Some? then e.contextJson.value else "{}";
    var head := "[" + timestamp + "] [" + ToUpper(e.level) + "] " + e.message;
    HeadOneLine(timestamp, ToUpper(e.level), e.message);
    var s5 := head + " | IP: ";
    NoNewlineAppend(head, " | IP: ");
    var s6 := s5 + e.ip;
    NoNewlineAppend(s5, e.ip);
    var s7 := s6 + " | User: ";
    NoNewlineAppend(s6, " | User: ");
    var s8 := s7 + user;
    NoNewlineAppend(s7, user);
    var s9 := s8 + " | Context: ";
    NoNewlineAppend(s8, " | Context: ");
    var s10 := s9 + json;
    NoNewlineAppend(s9, json);
    assert FileLine(e, timestamp) == s10 + "\n";
    CountAppend(s10, "\n", '\n');
  }

  /** The "[time] [LEVEL] message" head of a file entry holds no newline. */
  lemma HeadOneLine(timestamp: string, level: string, message: string)
    requires '\n' !in timestamp && '\n' !in level && '\n' !in message
    ensures Count("[" + timestamp + "] [" + level + "] " + message, '\n') == 0
  {
    var s0 := "[" + timestamp;
    NoNewlineAppend("[", timestamp);
    var s1 := s0 + "] [";
    NoNewlineAppend(s0, "] [");
    var s2 := s1 + level;
    NoNewlineAppend(s1, level);
    var s3 := s2 + "] ";
    NoNewlineAppend(s2, "] ");
    NoNewlineAppend(s3, message);
  }

  lemma NoNewlineAppend(a: string, b: string)
    requires Count(a, '\n') == 0 && '\n' !in b
    ensures Count(a + b, '\n') == 0
  {
    CountAppend(a, b, '\n');
  }

  /** The error_log line of an error-level entry. */
  function ErrorLogLine(e: Entry): string {
    "[" + e.level + "] " + e.message + (if e.contextJson.Some? then " | Context: " + e.contextJson.value else "")
  }

  /** The three places a log call writes to. */
  class AppLog {
    var rows: seq<Entry>
    var fileLines: seq<string>
    var errorLog: seq<string>

    constructor ()
      ensures rows == [] && fileLines == [] && errorLog == []
    {
      rows, fileLines, errorLog := [], [], [];
    }

    /**
     * log(): the row goes to system_logs unless the INSERT fails, in which
     * case the failure goes to error_log; the file line is written either
     * way; error-level entries are also copied to error_log. Always true.
     */
    method Log(level: string, message: string, context: seq<Field>, userId: Option<int>, env: Env,
               dbError: Option<string>, encode: Json -> string) returns (ok: bool)
      modifies this
      ensures var e := EntryOf(level, message, context, userId, env, encode);
        rows == old(rows) + (if dbError.None? then [e] else [])
        && fileLines == old(fileLines) + [FileLine(e, env.timestamp)]
        && errorLog == old(errorLog)
          + (if dbError.Some? then ["Failed to log to database: " + dbError.value] else [])
          + (if level == "error" then [ErrorLogLine(e)] else [])
      ensures ok
    {
      var e := EntryOf(level, message, context, userId, env, encode);
      var failures: seq<string> := [];
      if dbError.None? {
        rows := rows + [e];
      } else {
        failures := ["Failed to log to database: " + dbError.value];
      }
      fileLines := fileLines + [FileLine(e, env.timestamp)];
      var copies: seq<string> := if level == "error" then [ErrorLogLine(e)] else [];
      errorLog := errorLog + failures + copies;
      ok := true;
    }

    /** logCommand: a log() call with the command's level, message and context. */
    method LogCommand(command: string, output: Option<string>, returnCode: int, userId: Option<int>, env: Env,
                      dbError: Option<string>, encode: Json -> string) returns (ok: bool)
      modifies this
      ensures var c := CommandCall(command, output, returnCode);
        var e := EntryOf(c.level, c.message, c.context, userId, env, encode);
        rows == old(rows) + (if dbError.None? then [e] else [])
        && fileLines == old(fileLines) + [FileLine(e, env.timestamp)]
        && errorLog == old(errorLog) + (if dbError.Some? then ["Failed to log to database: " + dbError.value] else [])
      ensures ok
    {
      var c := CommandCall(command, output, returnCode);
      ok := Log(c.level, c.message, c.context, userId, env, dbError, encode);
    }

    /** exception(): an error-level log() call whose context gains the exception's details. */
    method LogException(ex: Exception, userId: Option<int>, context: seq<Field>, env: Env,
                        dbError: Option<string>, encode: Json -> string) returns (ok: bool)
      modifies this
      ensures var c := ExceptionCall(ex, context);
        var e := EntryOf(c.level, c.message, c.context, userId, env, encode);
        rows == old(rows) + (if dbError.None? then [e] else [])
        && fileLines == old(fileLines) + [FileLine(e, env.timestamp)]
        && errorLog == old(errorLog)
          + (if dbError.Some? then ["Failed to log to database: " + dbError.value] else []) + [ErrorLogLine(e)]
      ensures ok
    {
      var c := ExceptionCall(ex, context);
      ok := Log(c.level, c.message, c.context, userId, env, dbError, encode);
    }
  }

  // ------------------------------------------------------------------ the typed helpers

  /** The level, message and context a helper passes to log(). */
  datatype Call = Call(level: string, message: string, context: seq<Field>)

  /** substr($s, 0, $n) */
  function Prefix(s: string, n: nat): (r: string)
    ensures |r| == Min(|s|, n) && r == s[..|r|]
  {
    if |s| <= n then s else s[..n]
  }

  /**
   * logCommand: info for return code 0, warning otherwise; the command cut
   * to 500 characters in the context and 200 in the message.
   */
  function CommandCall(command: string, output: Option<string>, returnCode: int): (c: Call)
    ensures c.level == (if returnCode == 0 then "info" else "warning")
    ensures c.message == "Command executed: " + Prefix(command, 200)
    ensures |c.message| <= 18 + 200
  {
    var base := CommandBase(command, returnCode);
    var withLength := if output.Some? then base + [Field("output_length", JInt(|output.value|))] else base;
    var context := if output.Some? && returnCode != 0 then withLength + [Field("output", JStr(Prefix(output.value, 1000)))] else withLength;
    Call(if returnCode == 0 then "info" else "warning", "Command executed: " + Prefix(command, 200), context)
  }

  /** The three pairs every logCommand context starts with. */
  function CommandBase(command: string, returnCode: int): seq<Field> {
    [Field("type", JStr("command_execution")), Field("command", JStr(Prefix(command, 500))),
     Field("return_code", JInt(returnCode))]
  }

  /** What the three leading pairs give for each of the five keys. */
  lemma CommandBaseLookup(command: string, returnCode: int)
    ensures var base := CommandBase(command, returnCode);
      Lookup(base, "type") == Some(JStr("command_execution"))
      && Lookup(base, "command") == Some(JStr(Prefix(command, 500)))
      && Lookup(base, "return_code") == Some(JInt(returnCode))
      && Lookup(base, "output_length") == None && Lookup(base, "output") == None
  {
    var base := CommandBase(command, returnCode);
    var b1, b2 := base[1..], base[1..][1..];
    assert b1 == [base[1], base[2]] && b2 == [base[2]] && b2[1..] == [];
    assert Lookup(base, "command") == Lookup(b1, "command");
    assert Lookup(base, "return_code") == Lookup(b1, "return_code") == Lookup(b2, "return_code");
    assert Lookup(base, "output_length") == Lookup(b1, "output_length") == Lookup(b2, "output_length");
    assert Lookup(base, "output") == Lookup(b1, "output") == Lookup(b2, "output");
  }

  /** Appending a pair whose key `key` differs from leaves the lookup of `key` as it was, when it was found already. */
  lemma SnocKeys(a: seq<Field>, f: Field)
    ensures forall k :: k in ["type", "command", "return_code", "output_length", "output"] && k != f.key ==>
      Lookup(a + [f], k) == Lookup(a, k) || (Lookup(a, k).None? && Lookup(a + [f], k).None?)
    ensures Lookup(a, f.key).None? ==> Lookup(a + [f], f.key) == Some(f.value)
  {
    LookupSnoc(a, f, "type");
    LookupSnoc(a, f, "command");
    LookupSnoc(a, f, "return_code");
    LookupSnoc(a, f, "output_length");
    LookupSnoc(a, f, "output");
    LookupSnoc(a, f, f.key);
  }

  /**
   * logCommand's context: the type, the command cut to 500 characters and
   * the return code; the output's length whenever there is output, and the
   * output itself, cut to 1000 characters, only for a failing command.
   */
  lemma CommandContext(command: string, output: Option<string>, returnCode: int)
    ensures var ctx := CommandCall(command, output, returnCode).context;
      Lookup(ctx, "type") == Some(JStr("command_execution"))
      && Lookup(ctx, "command") == Some(JStr(Prefix(command, 500)))
      && Lookup(ctx, "return_code") == Some(JInt(returnCode))
      && Lookup(ctx, "output_length") == (if output.Some? then Some(JInt(|output.value|)) else None)
      && Lookup(ctx, "output") == (if output.Some? && returnCode != 0 then Some(JStr(Prefix(output.value, 1000))) else None)
  {
    var base := CommandBase(command, returnCode);
    var ctx := CommandCall(command, output, returnCode).context;
    CommandBaseLookup(command, returnCode);
    if output.None? {
      assert ctx == base;
    } else {
      var withLength := base + [Field("output_length", JInt(|output.value|))];
      SnocKeys(base, Field("output_length", JInt(|output.value|)));
      if returnCode != 0 {
        assert ctx == withLength + [Field("output", JStr(Prefix(output.value, 1000)))];
        SnocKeys(withLength, Field("output", JStr(Prefix(output.value, 1000))));
      } else {
        assert ctx == withLength;
      }
    }
  }

  /** logService: "Service <action>: <service>" at info, with the status only when one is given. */
  function ServiceCall(service: string, action: string, status: Option<string>): (c: Call)
    ensures c.level == "info" && c.message == "Service " + action + ": " + service
    ensures |c.context| == if status.Some? then 4 else 3
  {
    var base := [Field("type", JStr("service_action")), Field("service", JStr(service)), Field("action", JStr(action))];
    Call("info", "Service " + action + ": " + service, if status.Some? then base + [Field("status", JStr(status.value))] else base)
  }

  /** logService's context holds the service and the action, and the status only when one is given. */
  lemma ServiceContext(service: string, action: string, status: Option<string>)
    ensures var ctx := ServiceCall(service, action, status).context;
      Lookup(ctx, "service") == Some(JStr(service)) && Lookup(ctx, "action") == Some(JStr(action))
      && Lookup(ctx, "status") == (if status.Some? then Some(JStr(status.value)) else None)
  {
    var base := [Field("type", JStr("service_action")), Field("service", JStr(service)), Field("action", JStr(action))];
    var b1, b2 := base[1..], base[1..][1..];
    assert b1 == [base[1], base[2]] && b2 == [base[2]] && b2[1..] == [];
    assert Lookup(base, "service") == Lookup(b1, "service") == Some(JStr(service));
    assert Lookup(base, "action") == Lookup(b1, "action") == Lookup(b2, "action") == Some(JStr(action));
    assert Lookup(base, "status") == Lookup(b1, "status") == Lookup(b2, "status") == None;
    if status.Some? {
      var f := Field("status", JStr(status.value));
      LookupSnoc(base, f, "service");
      LookupSnoc(base, f, "action");
      LookupSnoc(base, f, "status");
    }
  }

  /** logPageAccess: "Page accessed: <method> <page>" at debug, with the page and method in the context. */
  function PageAccessCall(page: string, httpMethod: string): (c: Call)
    ensures c.level == "debug" && c.message == "Page accessed: " + httpMethod + " " + page
    ensures |c.context| == 3 && c.context[1] == Field("page", JStr(page)) && c.context[2] == Field("method", JStr(httpMethod))
  {
    Call("debug", "Page accessed: " + httpMethod + " " + page,
         [Field("type", JStr("page_access")), Field("page", JStr(page)), Field("method", JStr(httpMethod))])
  }

  /** logUpdate: the details merged over the type and update_type pairs (array_merge). */
  function UpdateCall(updateType: string, details: seq<Field>): (c: Call)
    ensures c.level == "info" && c.message == "System update: " + updateType
  {
    Call("info", "System update: " + updateType,
         Merge([Field("type", JStr("system_update")), Field("update_type", JStr(updateType))], details))
  }

  /** In logUpdate's context a detail wins over the base pairs; without an update_type detail the argument shows. */
  lemma UpdateContext(updateType: string, details: seq<Field>, k: string)
    ensures var ctx := UpdateCall(updateType, details).context;
      (LookupLast(details, k).Some? ==> Lookup(ctx, k) == LookupLast(details, k))
      && (LookupLast(details, "update_type").None? ==> Lookup(ctx, "update_type") == Some(JStr(updateType)))
  {
    var base := [Field("type", JStr("system_update")), Field("update_type", JStr(updateType))];
    MergeLookup(base, details, k);
    MergeLookup(base, details, "update_type");
    assert base[1..] == [base[1]];
    assert Lookup(base, "update_type") == Some(JStr(updateType));
  }

  /** What exception() reads from the exception. */
  datatype Exception = Exception(className: string, message: string, file: string, line: int, trace: string)

  function Details(ex: Exception): Json {
    JObject([Field("class", JStr(ex.className)), Field("file", JStr(ex.file)),
             Field("line", JInt(ex.line)), Field("trace", JStr(ex.trace))])
  }

  /** exception(): the message at error level, with the context's "exception" key set to the details. */
  function ExceptionCall(ex: Exception, context: seq<Field>): (c: Call)
    ensures c.level == "error" && c.message == ex.message
    ensures c.context != []
  {
    Call("error", ex.message, Put(context, "exception", Details(ex)))
  }

  /** exception()'s context: "exception" reads the class, file, line and trace; every other key is kept. */
  lemma ExceptionContext(ex: Exception, context: seq<Field>, k: string)
    ensures Lookup(ExceptionCall(ex, context).context, "exception") == Some(Details(ex))
    ensures k != "exception" ==> Lookup(ExceptionCall(ex, context).context, k) == Lookup(context, k)
  {
    PutLookup(context, "exception", Details(ex), k);
  }

  // ------------------------------------------------------------------ the filter builder

  /** The filters getLogs and getLogCount understand, in the order they are applied. */
  datatype FilterKey = Level | UserId | StartDate | EndDate | Search

  /** !empty($filters[$key]) */
  predicate Present(filters: map<FilterKey, Scalar>, k: FilterKey) {
    k in filters && Truthy(filters[k])
  }

  /** SQL text as fixed text and `?` placeholders. */
  datatype Token = Sql(text: string) | Mark

  function Marks(ts: seq<Token>): nat
    decreases |ts|
  {
    if ts == [] then 0 else (if ts[0].Mark? then 1 else 0) + Marks(ts[1..])
  }

  lemma {:induction false} MarksAppend(a: seq<Token>, b: seq<Token>)
    ensures Marks(a + b) == Marks(a) + Marks(b)
    decreases |a|
  {
    if a == [] {
      assert a + b == b;
    } else {
      assert (a + b)[0] == a[0];
      assert (a + b)[1..] == a[1..] + b;
      MarksAppend(a[1..], b);
    }
  }

  /** The statement text the tokens spell. */
  function Render(ts: seq<Token>): string
    decreases |ts|
  {
    if ts == [] then "" else (if ts[0].Mark? then "?" else ts[0].text) + Render(ts[1..])
  }

  /** One condition of the WHERE list. */
  function Clause(k: FilterKey): seq<Token> {
    match k
    case Level => [Sql("level = "), Mark]
    case UserId => [Sql("user_id = "), Mark]
    case StartDate => [Sql("created_at >= "), Mark]
    case EndDate => [Sql("created_at <= "), Mark]
    case Search => [Sql("(message LIKE "), Mark, Sql(" OR context LIKE "), Mark, Sql(")")]
  }

  /** The parameters a present filter adds: its value, or the `%term%` pattern twice for a search. */
  function ParamsFor(filters: map<FilterKey, Scalar>, k: FilterKey): seq<Scalar>
    requires k in filters
  {
    if k == Search then
      var term := Str("%" + AsString(filters[k]) + "%");
      [term, term]
    else [filters[k]]
  }

  lemma ClauseMarks(filters: map<FilterKey, Scalar>, k: FilterKey)
    requires k in filters
    ensures Marks(Clause(k)) == |ParamsFor(filters, k)|
  {
    var c := Clause(k);
    if k == Search {
      assert c[1..] == [Mark, Sql(" OR context LIKE "), Mark, Sql(")")];
      assert c[1..][1..] == [Sql(" OR context LIKE "), Mark, Sql(")")];
      assert c[1..][1..][1..] == [Mark, Sql(")")];
      assert c[1..][1..][1..][1..] == [Sql(")")];
      assert c[1..][1..][1..][1..][1..] == [];
      assert Marks(c[1..][1..][1..][1..]) == 0;
      assert Marks(c[1..][1..][1..]) == 1;
      assert Marks(c[1..][1..]) == 1;
      assert Marks(c[1..]) == 2;
    } else {
      assert c[1..] == [Mark];
      assert c[1..][1..] == [];
      assert Marks(c[1..]) == 1;
      assert !c[0].Mark?;
    }
  }

  /** What the filters contribute: the conditions and the parameters, in the order the code tests them. */
  datatype Part = Part(clauses: seq<seq<Token>>, params: seq<Scalar>)

  function PartFor(filters: map<FilterKey, Scalar>, k: FilterKey): Part {
    if Present(filters, k) then Part([Clause(k)], ParamsFor(filters, k)) else Part([], [])
  }

  function Then(a: Part, b: Part): Part {
    Part(a.clauses + b.clauses, a.params + b.params)
  }

  /** The conjunction in the order level, user_id, start_date, end_date, search. */
  function Conjunction(filters: map<FilterKey, Scalar>): Part {
    Then(Then(Then(Then(PartFor(filters, Level), PartFor(filters, UserId)), PartFor(filters, StartDate)),
              PartFor(filters, EndDate)), PartFor(filters, Search))
  }

  /** The conditions joined by AND. */
  function JoinAnd(clauses: seq<seq<Token>>): seq<Token>
    decreases |clauses|
  {
    if clauses == [] then []
    else if |clauses| == 1 then clauses[0]
    else clauses[0] + [Sql(" AND ")] + JoinAnd(clauses[1..])
  }

  /** $whereClause: nothing without conditions, else WHERE and the conditions joined by AND. */
  function WhereClause(clauses: seq<seq<Token>>): seq<Token> {
    if clauses == [] then [] else [Sql("WHERE ")] + JoinAnd(clauses)
  }

  /** The filter part of getLogs and getLogCount, condition by condition. */
  method BuildFilter(filters: map<FilterKey, Scalar>) returns (clauses: seq<seq<Token>>, params: seq<Scalar>)
    ensures Part(clauses, params) == Conjunction(filters)
  {
    clauses, params := [], [];
    if Present(filters, Level) {
      clauses, params := clauses + [Clause(Level)], params + [filters[Level]];
    }
    assert Part(clauses, params) == PartFor(filters, Level);
    ghost var done := Part(clauses, params);
    if Present(filters, UserId) {
      clauses, params := clauses + [Clause(UserId)], params + [filters[UserId]];
    }
    assert Part(clauses, params) == Then(done, PartFor(filters, UserId));
    done := Part(clauses, params);
    if Present(filters, StartDate) {
      clauses, params := clauses + [Clause(StartDate)], params + [filters[StartDate]];
    }
    assert Part(clauses, params) == Then(done, PartFor(filters, StartDate));
    done := Part(clauses, params);
    if Present(filters, EndDate) {
      clauses, params := clauses + [Clause(EndDate)], params + [filters[EndDate]];
    }
    assert Part(clauses, params) == Then(done, PartFor(filters, EndDate));
    done := Part(clauses, params);
    if Present(filters, Search) {
      var term := Str("%" + AsString(filters[Search]) + "%");
      clauses, params := clauses + [Clause(Search)], params + [term, term];
    }
    assert Part(clauses, params) == Then(done, PartFor(filters, Search));
  }

  /** No WHERE clause exactly when no filter is given a non-empty value. */
  lemma NoFiltersNoWhere(filters: map<FilterKey, Scalar>)
    ensures WhereClause(Conjunction(filters).clauses) == [] <==>
      (!Present(filters, Level) && !Present(filters, UserId) && !Present(filters, StartDate)
       && !Present(filters, EndDate) && !Present(filters, Search))
    ensures |Conjunction(filters).clauses| <= 5
  {
  }

  /** The placeholders of a list of conditions. */
  function Placeholders(clauses: seq<seq<Token>>): nat
    decreases |clauses|
  {
    if clauses == [] then 0 else Marks(clauses[0]) + Placeholders(clauses[1..])
  }

  lemma {:induction false} JoinPlaceholders(clauses: seq<seq<Token>>)
    ensures Marks(JoinAnd(clauses)) == Placeholders(clauses)
    decreases |clauses|
  {
    if |clauses| >= 2 {
      JoinPlaceholders(clauses[1..]);
      MarksAppend(clauses[0], [Sql(" AND ")]);
      MarksAppend(clauses[0] + [Sql(" AND ")], JoinAnd(clauses[1..]));
      assert [Sql(" AND ")][1..] == [];
    } else if |clauses| == 1 {
      assert clauses[1..] == [];
    }
  }

  lemma {:induction false} PlaceholdersAppend(a: seq<seq<Token>>, b: seq<seq<Token>>)
    ensures Placeholders(a + b) == Placeholders(a) + Placeholders(b)
    decreases |a|
  {
    if a == [] {
      assert a + b == b;
    } else {
      assert (a + b)[0] == a[0];
      assert (a + b)[1..] == a[1..] + b;
      PlaceholdersAppend(a[1..], b);
    }
  }

  /** A part whose placeholders match its parameters. */
  predicate Balanced(p: Part) { Placeholders(p.clauses) == |p.params| }

  lemma PartBalanced(filters: map<FilterKey, Scalar>, k: FilterKey)
    ensures Balanced(PartFor(filters, k))
  {
    if Present(filters, k) {
      ClauseMarks(filters, k);
      assert [Clause(k)][1..] == [];
    }
  }

  lemma ThenBalanced(a: Part, b: Part)
    requires Balanced(a) && Balanced(b)
    ensures Balanced(Then(a, b))
  {
    PlaceholdersAppend(a.clauses, b.clauses);
  }

  /** The WHERE clause has exactly as many placeholders as there are filter parameters. */
  lemma WherePlaceholders(filters: map<FilterKey, Scalar>)
    ensures Marks(WhereClause(Conjunction(filters).clauses)) == |Conjunction(filters).params|
  {
    PartBalanced(filters, Level);
    PartBalanced(filters, UserId);
    PartBalanced(filters, StartDate);
    PartBalanced(filters, EndDate);
    PartBalanced(filters, Search);
    var p1 := Then(PartFor(filters, Level), PartFor(filters, UserId));
    ThenBalanced(PartFor(filters, Level), PartFor(filters, UserId));
    var p2 := Then(p1, PartFor(filters, StartDate));
    ThenBalanced(p1, PartFor(filters, StartDate));
    var p3 := Then(p2, PartFor(filters, EndDate));
    ThenBalanced(p2, PartFor(filters, EndDate));
    ThenBalanced(p3, PartFor(filters, Search));
    var clauses := Conjunction(filters).clauses;
    JoinPlaceholders(clauses);
    if clauses != [] {
      MarksAppend([Sql("WHERE ")], JoinAnd(clauses));
      assert [Sql("WHERE ")][1..] == [];
    }
  }

  /** A prepared statement: its text as tokens (blanks collapsed) and its parameters. */
  datatype Query = Query(sql: seq<Token>, params: seq<Scalar>)

  const LogsSelect := Sql("SELECT sl.*, u.username FROM system_logs sl LEFT JOIN users u ON sl.user_id = u.id ")
  const LogsOrder := [Sql(" ORDER BY sl.created_at DESC LIMIT "), Mark, Sql(" OFFSET "), Mark]
  const CountSelect := Sql("SELECT COUNT(*) as count FROM system_logs ")

  /**
   * getLogs: the filter conditions, then the limit and the offset; the
   * statement's placeholders match its parameters one for one.
   */
  method LogsQuery(filters: map<FilterKey, Scalar>, limit: Scalar, offset: Scalar) returns (q: Query)
    ensures q.sql == [LogsSelect] + WhereClause(Conjunction(filters).clauses) + LogsOrder
    ensures q.params == Conjunction(filters).params + [limit, offset]
    ensures Marks(q.sql) == |q.params|
  {
    var clauses, params := BuildFilter(filters);
    var where := WhereClause(clauses);
    q := Query([LogsSelect] + where + LogsOrder, params + [limit, offset]);
    WherePlaceholders(filters);
    MarksAppend([LogsSelect], where);
    MarksAppend([LogsSelect] + where, LogsOrder);
    assert [LogsSelect][1..] == [];
    assert LogsOrder[1..][1..][1..][1..] == [];
  }

  /** getLogCount: the same conditions and parameters as getLogs, without limit and offset. */
  method CountQuery(filters: map<FilterKey, Scalar>) returns (q: Query)
    ensures q.sql == [CountSelect] + WhereClause(Conjunction(filters).clauses)
    ensures q.params == Conjunction(filters).params
    ensures Marks(q.sql) == |q.params|
  {
    var clauses, params := BuildFilter(filters);
    var where := WhereClause(clauses);
    q := Query([CountSelect] + where, params);
    WherePlaceholders(filters);
    MarksAppend([CountSelect], where);
    assert [CountSelect][1..] == [];
  }

  /** A search adds one condition, last, with the `%term%` pattern as the last two parameters. */
  lemma SearchParams(filters: map<FilterKey, Scalar>)
    requires Present(filters, Search)
    ensures var c := Conjunction(filters);
      var term := Str("%" + AsString(filters[Search]) + "%");
      |c.params| >= 2 && c.clauses[|c.clauses| - 1] == Clause(Search) && c.params[|c.params| - 2..] == [term, term]
  {
  }
}
