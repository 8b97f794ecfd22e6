/**
 * The start-up configuration of the Go backend: the `.env` loader, which
 * fills in process environment variables that are not already set, the
 * list of origins the CORS wrapper accepts, and the wrapper's decision for
 * one request. The process environment is an object whose variables the
 * loader sets; the origin list is a value the builders pass along.
 */
module MainConfig {
  import opened Text

  // ------------------------------------------------------------------ .env lines

  /** One assignment read from a `.env` line. */
  datatype EnvEntry = EnvEntry(key: string, value: string)

  /** The characters strings.Trim(value, "\"'") cuts from both ends of a value. */
  const Quotes: set<char> := {'"', '\''}

  /**
   * One line of the file: blank lines and comments give nothing; an
   * `export ` prefix is dropped before the rest is read.
   */
  function ParseEnvLine(raw: string): (r: Option<EnvEntry>)
    ensures GoTrim(raw) == "" || HasPrefix(GoTrim(raw), "#") ==> r == None
    ensures r.Some? ==> r.value.key != ""
  {
    var line := GoTrim(raw);
    if line == "" || HasPrefix(line, "#") then None else ParseEnvBody(EnvBody(line))
  }

  /** The trimmed line without its `export ` prefix. */
  function EnvBody(line: string): string {
    if HasPrefix(line, "export ") then GoTrim(TrimPrefix(line, "export")) else line
  }

  /**
   * KEY=VALUE: nothing without `=` or with an empty key; key and value are
   * split at the first `=` and trimmed, and quotes are cut from both ends
   * of the value.
   */
  function ParseEnvBody(body: string): (r: Option<EnvEntry>)
    ensures r.Some? ==> r.value.key != ""
    ensures r.Some? && r.value.value != [] ==> r.value.value[0] !in Quotes && r.value.value[|r.value.value| - 1] !in Quotes
    ensures '=' !in body ==> r == None
  {
    var sep := IndexOf(body, '=');
    if sep == -1 then None
    else
      var key := GoTrim(body[..sep]);
      var value := GoTrim(body[sep + 1..]);
      if key == "" then None else Some(EnvEntry(key, TrimChars(value, Quotes)))
  }

  /** A string that white-space trimming leaves as it is. */
  predicate Untrimmed(s: string) {
    s != [] && !IsGoSpace(s[0]) && !IsGoSpace(s[|s| - 1])
  }

  lemma GoTrimUntrimmed(s: string)
    requires Untrimmed(s)
    ensures GoTrim(s) == s
  {
    assert TrimLeft(s, GoSpace) == s;
  }

  lemma GoTrimLeadingSpace(s: string)
    requires Untrimmed(s)
    ensures GoTrim(" " + s) == s
  {
    assert (" " + s)[1..] == s;
    assert TrimLeft(" " + s, GoSpace) == TrimLeft(s, GoSpace) == s;
  }

  /** The first '=' of key=value is the one after the key when the key has none. */
  lemma IndexOfAfterKey(key: string, value: string)
    requires '=' !in key
    ensures IndexOf(key + "=" + value, '=') == |key|
  {
    var s := key + "=" + value;
    assert s[|key|] == '=';
    assert s[..|key|] == key;
    var k := IndexOf(s, '=');
    assert k <= |key| by {
      assert '=' in s[..|key| + 1] by { assert s[..|key| + 1][|key|] == '='; }
    }
  }

  /** A key and a value that the loader reads back unchanged from a `KEY=VALUE` line. */
  predicate PlainAssignment(key: string, value: string) {
    Untrimmed(key) && '=' !in key && key[0] != '#' && !HasPrefix(key, "export ")
    && (value != [] ==> Untrimmed(value) && value[0] !in Quotes && value[|value| - 1] !in Quotes)
  }

  lemma SplitAssignment(key: string, value: string)
    requires PlainAssignment(key, value)
    ensures var s := key + "=" + value;
      s[..|key|] == key && s[|key| + 1..] == value && Untrimmed(s) && !HasPrefix(s, "#") && !HasPrefix(s, "export ")
  {
    var s := key + "=" + value;
    assert s[..|key|] == key;
    assert s[|key| + 1..] == value;
    assert |key| >= 7 ==> s[..7] == key[..7];
    assert |key| < 7 ==> s[|key|] == '=' && "export "[|key|] != '=';
  }

  /** KEY=VALUE with a plain key and value reads back as that assignment. */
  lemma ParsePlainBody(key: string, value: string)
    requires PlainAssignment(key, value)
    ensures ParseEnvBody(key + "=" + value) == Some(EnvEntry(key, value))
  {
    SplitAssignment(key, value);
    IndexOfAfterKey(key, value);
    GoTrimUntrimmed(key);
    if value != [] {
      GoTrimUntrimmed(value);
    }
    assert TrimChars(value, Quotes) == value;
  }

  /** Writing `KEY=VALUE` and reading it back gives the same assignment. */
  lemma ParsePlainLine(key: string, value: string)
    requires PlainAssignment(key, value)
    ensures ParseEnvLine(key + "=" + value) == Some(EnvEntry(key, value))
  {
    var s := key + "=" + value;
    SplitAssignment(key, value);
    GoTrimUntrimmed(s);
    assert EnvBody(s) == s;
    ParsePlainBody(key, value);
  }

  /** The `export ` prefix changes nothing. */
  lemma ParseExportLine(key: string, value: string)
    requires PlainAssignment(key, value)
    ensures ParseEnvLine("export " + key + "=" + value) == Some(EnvEntry(key, value))
  {
    var s := key + "=" + value;
    var line := "export " + key + "=" + value;
    SplitAssignment(key, value);
    assert line == "export" + (" " + s);
    assert Untrimmed(line) by {
      assert line[0] == 'e';
      assert line[|line| - 1] == s[|s| - 1];
    }
    GoTrimUntrimmed(line);
    assert TrimPrefix(line, "export") == " " + s;
    GoTrimLeadingSpace(s);
    assert EnvBody(line) == s;
    ParsePlainBody(key, value);
  }

  // ------------------------------------------------------------------ the environment

  /** setenv for one line, unless the variable already holds a non-empty value. */
  function ApplyEnvLine(env: map<string, string>, raw: string): map<string, string> {
    match ParseEnvLine(raw)
    case None => env
    case Some(e) => if e.key in env && env[e.key] != "" then env else env[e.key := e.value]
  }

  /** The environment after the loader has read the given lines in order. */
  function ApplyEnvLines(env: map<string, string>, lines: seq<string>): map<string, string>
    decreases |lines|
  {
    if lines == [] then env else ApplyEnvLine(ApplyEnvLines(env, lines[..|lines| - 1]), lines[|lines| - 1])
  }

  /** A variable that already has a non-empty value is never overwritten, whatever the file says. */
  lemma {:induction false} SetVariablesKept(env: map<string, string>, lines: seq<string>, key: string)
    requires key in env && env[key] != ""
    ensures key in ApplyEnvLines(env, lines) && ApplyEnvLines(env, lines)[key] == env[key]
    decreases |lines|
  {
    if lines != [] {
      SetVariablesKept(env, lines[..|lines| - 1], key);
    }
  }

  /** The loader only ever adds or sets variables: none disappears. */
  lemma {:induction false} VariablesNeverRemoved(env: map<string, string>, lines: seq<string>)
    ensures env.Keys <= ApplyEnvLines(env, lines).Keys
    decreases |lines|
  {
    if lines != [] {
      VariablesNeverRemoved(env, lines[..|lines| - 1]);
    }
  }

  /** A plain line sets an unset (or empty) variable to its value. */
  lemma PlainLineSets(env: map<string, string>, key: string, value: string)
    requires PlainAssignment(key, value)
    requires key !in env || env[key] == ""
    ensures ApplyEnvLine(env, key + "=" + value) == env[key := value]
  {
    ParsePlainLine(key, value);
  }

  /** The process environment, as os.Getenv and os.Setenv see it. */
  class Environment {
    var vars: map<string, string>

    constructor (initial: map<string, string>)
      ensures vars == initial
    {
      vars := initial;
    }

    /**
     * loadEnvFile: a file that cannot be opened is an error and changes
     * nothing; otherwise every line is applied in order.
     */
    method LoadEnvFile(file: Option<string>) returns (ok: bool)
      modifies this
      ensures ok <==> file.Some?
      ensures file.None? ==> vars == old(vars)
      ensures file.Some? ==> vars == ApplyEnvLines(old(vars), Split(file.value, '\n'))
    {
      if file.None? {
        return false;
      }
      var lines := Split(file.value, '\n');
      for i := 0 to |lines|
        invariant vars == ApplyEnvLines(old(vars), lines[..i])
      {
        assert lines[..i + 1][..i] == lines[..i];
        var entry := ParseEnvLine(lines[i]);
        if entry.Some? {
          var e := entry.value;
          if !(e.key in vars && vars[e.key] != "") {
            vars := vars[e.key := e.value];
          }
        }
      }
      assert lines[..|lines|] == lines;
      ok := true;
    }
  }

  // ------------------------------------------------------------------ origin lists

  /** value is in the list up to ASCII case. */
  predicate FoldMember(value: string, origins: seq<string>) {
    exists i :: 0 <= i < |origins| && EqualFold(origins[i], value)
  }

  /** No two entries are equal up to ASCII case. */
  predicate NoFoldDuplicates(origins: seq<string>) {
    forall i, j :: 0 <= i < j < |origins| ==> !EqualFold(origins[i], origins[j])
  }

  /** The list after appendIfMissing. */
  function AppendedIfMissing(origins: seq<string>, value: string): seq<string> {
    if value == "" || FoldMember(value, origins) then origins else origins + [value]
  }

  /** appendIfMissing, value by value. */
  function AppendAll(origins: seq<string>, values: seq<string>): seq<string>
    decreases |values|
  {
    if values == [] then origins
    else AppendedIfMissing(AppendAll(origins, values[..|values| - 1]), values[|values| - 1])
  }

  /** appendIfMissing: an empty value or a case-insensitive duplicate is ignored, anything else goes last. */
  method AppendIfMissing(origins: seq<string>, value: string) returns (r: seq<string>)
    ensures value == "" || FoldMember(value, origins) ==> r == origins
    ensures value != "" && !FoldMember(value, origins) ==> r == origins + [value]
    ensures r == AppendedIfMissing(origins, value)
  {
    if value == "" {
      return origins;
    }
    for i := 0 to |origins|
      invariant forall j :: 0 <= j < i ==> !EqualFold(origins[j], value)
    {
      if EqualFold(origins[i], value) {
        return origins;
      }
    }
    r := origins + [value];
  }

  /** appendIfMissing keeps the list free of case-insensitive duplicates. */
  lemma AppendedNoDuplicates(origins: seq<string>, value: string)
    requires NoFoldDuplicates(origins)
    ensures NoFoldDuplicates(AppendedIfMissing(origins, value))
  {
    if value != "" && !FoldMember(value, origins) {
      var r := origins + [value];
      forall i, j | 0 <= i < j < |r|
        ensures !EqualFold(r[i], r[j])
      {
        if j == |origins| {
          assert !EqualFold(origins[i], value);
        }
      }
    }
  }

  lemma {:induction false} AppendAllNoDuplicates(origins: seq<string>, values: seq<string>)
    requires NoFoldDuplicates(origins)
    ensures NoFoldDuplicates(AppendAll(origins, values))
    decreases |values|
  {
    if values != [] {
      AppendAllNoDuplicates(origins, values[..|values| - 1]);
      AppendedNoDuplicates(AppendAll(origins, values[..|values| - 1]), values[|values| - 1]);
    }
  }

  /**
   * Exact contents: the result starts with the original list, every entry
   * comes from the list or the values, and every non-empty value is there
   * up to case.
   */
  lemma {:induction false} AppendAllContents(origins: seq<string>, values: seq<string>)
    ensures origins <= AppendAll(origins, values)
    ensures forall x :: x in AppendAll(origins, values) ==> x in origins || x in values
    ensures forall k :: 0 <= k < |values| && values[k] != "" ==> FoldMember(values[k], AppendAll(origins, values))
    decreases |values|
  {
    if values != [] {
      var init := values[..|values| - 1];
      var v := values[|values| - 1];
      var prev := AppendAll(origins, init);
      AppendAllContents(origins, init);
      var r := AppendAll(origins, values);
      assert r == AppendedIfMissing(prev, v);
      assert prev <= r;
      forall k | 0 <= k < |values| && values[k] != ""
        ensures FoldMember(values[k], r)
      {
        if k < |values| - 1 {
          assert values[k] == init[k];
          var i :| 0 <= i < |prev| && EqualFold(prev[i], values[k]);
          assert r[i] == prev[i];
        } else if !FoldMember(v, prev) {
          assert r[|prev|] == v;
        } else {
          var i :| 0 <= i < |prev| && EqualFold(prev[i], v);
          assert r[i] == prev[i];
        }
      }
      forall x | x in r
        ensures x in origins || x in values
      {
        if x !in prev {
          assert x == v;
        } else {
          assert x in origins || x in init;
          if x in init {
            var k :| 0 <= k < |init| && init[k] == x;
            assert values[k] == x;
          }
        }
      }
    }
  }

  const DefaultOrigins: seq<string> := ["http://localhost", "http://localhost:3000", "http://127.0.0.1", "http://127.0.0.1:3000"]

  /** What addOriginForHost adds: nothing for a blank host or localhost, otherwise http://host and, with a port, http://host:port. */
  function HostOrigins(host: string, port: string): seq<string> {
    var h := GoTrim(host);
    if h == "" || h == "localhost" then []
    else ["http://" + h] + (if port != "" then ["http://" + h + ":" + port] else [])
  }

  /** The trimmed, non-empty comma-separated parts of ALLOWED_ORIGINS, in order. */
  function NonEmptyTrimmed(parts: seq<string>): (r: seq<string>)
    ensures forall x :: x in r ==> x != ""
    decreases |parts|
  {
    if parts == [] then []
    else
      var t := GoTrim(parts[|parts| - 1]);
      NonEmptyTrimmed(parts[..|parts| - 1]) + (if t != "" then [t] else [])
  }

  /** buildAllowedOrigins: ALLOWED_ORIGINS when it is set, otherwise the defaults and the two hosts. */
  function AllowedOrigins(allowedEnv: string, serverIP: string, hostname: string, frontendPort: string): seq<string> {
    var env := GoTrim(allowedEnv);
    if env != "" then AppendAll([], NonEmptyTrimmed(Split(env, ',')))
    else AppendAll(AppendAll(AppendAll([], DefaultOrigins), HostOrigins(hostname, frontendPort)),
                   HostOrigins(serverIP, frontendPort))
  }

  /** appendIfMissing for one more value at the end. */
  lemma AppendAllSnoc(origins: seq<string>, values: seq<string>, v: string)
    ensures AppendAll(origins, values + [v]) == AppendedIfMissing(AppendAll(origins, values), v)
  {
    assert (values + [v])[..|values|] == values;
  }

  /** addOriginForHost */
  method AddOriginForHost(origins: seq<string>, host: string, port: string) returns (r: seq<string>)
    ensures r == AppendAll(origins, HostOrigins(host, port))
  {
    var trimmedHost := GoTrim(host);
    if trimmedHost == "" || trimmedHost == "localhost" {
      return origins;
    }
    var bare := "http://" + trimmedHost;
    AppendAllSnoc(origins, [], bare);
    r := AppendIfMissing(origins, bare);
    if port != "" {
      var withPort := "http://" + trimmedHost + ":" + port;
      AppendAllSnoc(origins, [bare], withPort);
      r := AppendIfMissing(r, withPort);
      assert [bare] + [withPort] == HostOrigins(host, port);
    }
  }

  /** The loop of buildAllowedOrigins over the comma-separated parts of ALLOWED_ORIGINS. */
  method OriginsFromParts(parts: seq<string>) returns (origins: seq<string>)
    ensures origins == AppendAll([], NonEmptyTrimmed(parts))
  {
    origins := [];
    for i := 0 to |parts|
      invariant origins == AppendAll([], NonEmptyTrimmed(parts[..i]))
    {
      assert parts[..i + 1][..i] == parts[..i];
      var trimmed := GoTrim(parts[i]);
      if trimmed != "" {
        AppendAllSnoc([], NonEmptyTrimmed(parts[..i]), trimmed);
        assert NonEmptyTrimmed(parts[..i + 1]) == NonEmptyTrimmed(parts[..i]) + [trimmed];
        origins := AppendIfMissing(origins, trimmed);
        assert origins == AppendAll([], NonEmptyTrimmed(parts[..i]) + [trimmed]);
      } else {
        assert NonEmptyTrimmed(parts[..i + 1]) == NonEmptyTrimmed(parts[..i]);
      }
    }
    assert parts[..|parts|] == parts;
  }

  /** The loop of buildAllowedOrigins over the four localhost defaults. */
  method DefaultOriginList() returns (origins: seq<string>)
    ensures origins == AppendAll([], DefaultOrigins)
  {
    origins := [];
    for i := 0 to |DefaultOrigins|
      invariant origins == AppendAll([], DefaultOrigins[..i])
    {
      AppendAllSnoc([], DefaultOrigins[..i], DefaultOrigins[i]);
      assert DefaultOrigins[..i + 1] == DefaultOrigins[..i] + [DefaultOrigins[i]];
      origins := AppendIfMissing(origins, DefaultOrigins[i]);
    }
    assert DefaultOrigins[..|DefaultOrigins|] == DefaultOrigins;
  }

  /** buildAllowedOrigins */
  method BuildAllowedOrigins(allowedEnv: string, serverIP: string, hostname: string, frontendPort: string)
    returns (origins: seq<string>)
    ensures origins == AllowedOrigins(allowedEnv, serverIP, hostname, frontendPort)
  {
    var env := GoTrim(allowedEnv);
    if env != "" {
      origins := OriginsFromParts(Split(env, ','));
      return;
    }
    origins := DefaultOriginList();
    origins := AddOriginForHost(origins, hostname, frontendPort);
    origins := AddOriginForHost(origins, serverIP, frontendPort);
  }

  /** The origin list never holds two entries that differ only in case. */
  lemma AllowedOriginsDistinct(allowedEnv: string, serverIP: string, hostname: string, frontendPort: string)
    ensures NoFoldDuplicates(AllowedOrigins(allowedEnv, serverIP, hostname, frontendPort))
  {
    var env := GoTrim(allowedEnv);
    if env != "" {
      AppendAllNoDuplicates([], NonEmptyTrimmed(Split(env, ',')));
    } else {
      AppendAllNoDuplicates([], DefaultOrigins);
      AppendAllNoDuplicates(AppendAll([], DefaultOrigins), HostOrigins(hostname, frontendPort));
      AppendAllNoDuplicates(AppendAll(AppendAll([], DefaultOrigins), HostOrigins(hostname, frontendPort)),
                            HostOrigins(serverIP, frontendPort));
    }
  }

  /**
   * With ALLOWED_ORIGINS set, the list holds exactly its trimmed non-empty
   * parts: nothing else, and each of them up to case.
   */
  lemma AllowedOriginsFromEnv(allowedEnv: string, serverIP: string, hostname: string, frontendPort: string)
    requires GoTrim(allowedEnv) != ""
    ensures var parts := NonEmptyTrimmed(Split(GoTrim(allowedEnv), ','));
      var r := AllowedOrigins(allowedEnv, serverIP, hostname, frontendPort);
      (forall x :: x in r ==> x in parts) && (forall k :: 0 <= k < |parts| ==> FoldMember(parts[k], r))
  {
    var parts := NonEmptyTrimmed(Split(GoTrim(allowedEnv), ','));
    AppendAllContents([], parts);
    forall k | 0 <= k < |parts|
      ensures FoldMember(parts[k], AllowedOrigins(allowedEnv, serverIP, hostname, frontendPort))
    {
      assert parts[k] in parts;
    }
  }

  /** Non-empty values with no duplicates up to case are all kept, in order. */
  lemma {:induction false} DistinctValuesKept(values: seq<string>)
    requires forall k :: 0 <= k < |values| ==> values[k] != ""
    requires NoFoldDuplicates(values)
    ensures AppendAll([], values) == values
    decreases |values|
  {
    if values != [] {
      var init := values[..|values| - 1];
      var v := values[|values| - 1];
      DistinctValuesKept(init);
      forall i | 0 <= i < |init|
        ensures !EqualFold(init[i], v)
      {
        assert init[i] == values[i];
      }
      assert init + [v] == values;
    }
  }

  /** Two lengths and one character are enough to tell the four defaults apart. */
  lemma DefaultShapesDistinct(a: string, b: string, c: string, d: string)
    requires |a| == 16 && |b| == 21 && |c| == 16 && |d| == 21
    requires a[7] == 'l' && b[7] == 'l' && c[7] == '1' && d[7] == '1'
    ensures NoFoldDuplicates([a, b, c, d])
  {
    assert LowerChar(a[7]) != LowerChar(c[7]) && LowerChar(b[7]) != LowerChar(d[7]);
  }

  /** The four localhost defaults are non-empty and distinct up to case. */
  lemma DefaultOriginsDistinct()
    ensures forall k :: 0 <= k < |DefaultOrigins| ==> DefaultOrigins[k] != ""
    ensures NoFoldDuplicates(DefaultOrigins)
  {
    var d0, d1, d2, d3 := DefaultOrigins[0], DefaultOrigins[1], DefaultOrigins[2], DefaultOrigins[3];
    assert |d0| == 16 && |d1| == 21 && |d2| == 16 && |d3| == 21;
    assert d0[7] == 'l' && d1[7] == 'l' && d2[7] == '1' && d3[7] == '1';
    DefaultShapesDistinct(d0, d1, d2, d3);
    assert DefaultOrigins == [d0, d1, d2, d3];
  }

  /** So buildAllowedOrigins keeps all four defaults, in order. */
  lemma DefaultOriginsKept()
    ensures AppendAll([], DefaultOrigins) == DefaultOrigins
  {
    DefaultOriginsDistinct();
    DistinctValuesKept(DefaultOrigins);
  }

  /** Without ALLOWED_ORIGINS the list starts with the four defaults, in their order. */
  lemma DefaultsFirst(allowedEnv: string, serverIP: string, hostname: string, frontendPort: string)
    requires GoTrim(allowedEnv) == ""
    ensures DefaultOrigins <= AllowedOrigins(allowedEnv, serverIP, hostname, frontendPort)
  {
    DefaultOriginsKept();
    AppendAllContents(DefaultOrigins, HostOrigins(hostname, frontendPort));
    AppendAllContents(AppendAll(DefaultOrigins, HostOrigins(hostname, frontendPort)), HostOrigins(serverIP, frontendPort));
  }

  // ------------------------------------------------------------------ CORS

  /** isOriginAllowed: the origin equals some listed one up to case. */
  method IsOriginAllowed(origin: string, allowedOrigins: seq<string>) returns (allowed: bool)
    ensures allowed <==> FoldMember(origin, allowedOrigins)
  {
    for i := 0 to |allowedOrigins|
      invariant forall j :: 0 <= j < i ==> !EqualFold(allowedOrigins[j], origin)
    {
      if EqualFold(origin, allowedOrigins[i]) {
        return true;
      }
    }
    allowed := false;
  }

  datatype Header = Header(name: string, value: string)

  /** The wrapper's answer: a preflight it answers itself with 204, or a request passed on to the handler. */
  datatype CorsReply = Preflight(headers: seq<Header>) | Forwarded(headers: seq<Header>)

  /** The response headers set for an accepted origin, in the order withCORS sets them. */
  function CorsHeaders(origin: string): seq<Header> {
    [Header("Access-Control-Allow-Origin", origin), Header("Vary", "Origin"),
     Header("Access-Control-Allow-Credentials", "true"),
     Header("Access-Control-Allow-Headers", "Content-Type, Authorization, X-Requested-With"),
     Header("Access-Control-Allow-Methods", "GET, POST, PUT, DELETE, OPTIONS")]
  }

  /** An origin that withCORS echoes back: present, not "null", and `*` or itself listed. */
  predicate CorsAccepts(allowedOrigins: seq<string>, origin: string) {
    origin != "" && origin != "null" && ("*" in allowedOrigins || FoldMember(origin, allowedOrigins))
  }

  /** withCORS for one request: the headers for an accepted origin; OPTIONS never reaches the handler. */
  method WithCors(allowedOrigins: seq<string>, origin: string, httpMethod: string) returns (reply: CorsReply)
    ensures reply.Preflight? <==> httpMethod == "OPTIONS"
    ensures CorsAccepts(allowedOrigins, origin) ==> reply.headers == CorsHeaders(origin)
    ensures !CorsAccepts(allowedOrigins, origin) ==> reply.headers == []
  {
    var allowAny := false;
    for i := 0 to |allowedOrigins|
      invariant allowAny <==> "*" in allowedOrigins[..i]
    {
      assert allowedOrigins[..i + 1] == allowedOrigins[..i] + [allowedOrigins[i]];
      if allowedOrigins[i] == "*" {
        allowAny := true;
        break;
      }
    }
    assert allowAny <==> "*" in allowedOrigins by {
      if !allowAny {
        assert allowedOrigins[..|allowedOrigins|] == allowedOrigins;
      }
    }
    var headers: seq<Header> := [];
    if origin != "" && origin != "null" {
      var listed := IsOriginAllowed(origin, allowedOrigins);
      if allowAny || listed {
        headers := CorsHeaders(origin);
      }
    }
    if httpMethod == "OPTIONS" {
      return Preflight(headers);
    }
    reply := Forwarded(headers);
  }

  // ------------------------------------------------------------------ host:port

  /** formatHostWithPort: no host gives ""; port "" or "80" gives the bare host; otherwise host:port. */
  function FormatHostWithPort(host: string, port: string): (r: string)
    ensures r == "" <==> host == ""
    ensures host <= r
    ensures |r| > |host| <==> host != "" && port != "" && port != "80"
  {
    if host == "" then host
    else if port == "" || port == "80" then host
    else host + ":" + port
  }

  /**
   * Splitting the result at ':' gives back the host, followed by the port
   * exactly when there is a host and the port is neither empty nor 80.
   */
  lemma FormatHostWithPortParts(host: string, port: string)
    requires ':' !in host && ':' !in port
    ensures host == "" ==> FormatHostWithPort(host, port) == ""
    ensures host != "" && (port == "" || port == "80") ==> Split(FormatHostWithPort(host, port), ':') == [host]
    ensures host != "" && port != "" && port != "80" ==> Split(FormatHostWithPort(host, port), ':') == [host, port]
  {
    if host != "" {
      if port == "" || port == "80" {
        SplitNoSeparator(host, ':');
      } else {
        SplitFirstPart(host, ':', port);
        SplitNoSeparator(port, ':');
      }
    }
  }
}
