/**
 * The background logging daemon (scripts/logging-daemon.php): the tail of
 * log files from a remembered byte offset, the list of command hashes
 * already seen in shell histories, the service-state file, the six-hourly
 * update check and the schedule of the main loop.
 *
 * The daemon's state (the static offsets map, the three state files and
 * the loop counter) is one `LoggingDaemon` object; what it hands to the
 * logger is the list `logged` of Logger calls. File contents, systemctl
 * results, the clock, md5 and the three regular expressions are
 * parameters; a file is keyed by its path rather than the md5 of it.
 */
module LoggingDaemon {
  import opened Text
  import Logger
  import SystemStats

  /** PHP empty() on a string: "" and "0". */
  predicate Empty(s: string) { s == "" || s == "0" }

  // ------------------------------------------------------------------ monitorLogFile

  /** The byte range [start, stop) of the file a call reads. */
  datatype Window = Window(start: nat, stop: nat)

  /**
   * The range monitorLogFile reads as written: nothing when the file is no
   * longer than the stored offset, else from the offset to the end.
   */
  function ReadWindowAsWritten(position: nat, size: nat): (w: Option<Window>)
    ensures w.None? <==> size <= position
    ensures w.Some? ==> w.value == Window(position, size)
  {
    if size <= position then None else Some(Window(position, size))
  }

  /**
   * The intended range: a file shorter than the offset has been truncated
   * or rotated, so it is read from its start.
   */
  function ReadWindow(position: nat, size: nat): (w: Option<Window>)
    ensures w.None? <==> size == position
    ensures w.Some? ==> w.value.stop == size && w.value.start <= size
    ensures size > position ==> w == ReadWindowAsWritten(position, size)
    ensures size < position ==> w == Some(Window(0, size))
  {
    if size == position then None
    else if size < position then Some(Window(0, size))
    else Some(Window(position, size))
  }

  /** The offset kept after a read: the size read up to, or the old offset when nothing was read. */
  function NextPosition(position: nat, w: Option<Window>): nat {
    if w.Some? then w.value.stop else position
  }

  /** The text a call reads from the file. */
  function Fresh(file: string, w: Option<Window>): string
    requires w.Some? ==> w.value.start <= w.value.stop <= |file|
  {
    if w.Some? then file[w.value.start..w.value.stop] else ""
  }

  /** The stored offset of a file, 0 for a file not seen before. */
  function Position(positions: map<string, nat>, path: string): nat {
    if path in positions then positions[path] else 0
  }

  /** What a call reads of a file whose stored offset is `position`. */
  function Gained(position: nat, file: string): (g: string)
    ensures |file| > position ==> g == file[position..]
    ensures |file| < position ==> g == file
    ensures |file| == position ==> g == ""
  {
    Fresh(file, ReadWindow(position, |file|))
  }

  /** The calls for the text a call has read: one per significant non-blank line of it. */
  function TailCalls(gained: string, source: string, kind: string, p: Patterns): seq<Logger.Call> {
    if Empty(gained) then [] else LineCalls(Split(PhpTrim(gained), '\n'), source, kind, p)
  }

  /**
   * A log file that shrank below the stored offset (rotated by logrotate)
   * is not read as written, and the offset stays where it was, so the new
   * file's lines up to the old offset are never read; the intended
   * version reads the new file from its start.
   */
  lemma RotatedLogIgnored(position: nat, file: string)
    requires |file| < position
    ensures ReadWindowAsWritten(position, |file|).None?
    ensures NextPosition(position, ReadWindowAsWritten(position, |file|)) == position
    ensures Fresh(file, ReadWindow(position, |file|)) == file
    ensures NextPosition(position, ReadWindow(position, |file|)) == |file|
  {
  }

  /** The rotated file, once it has grown past the old offset, is read only from there on. */
  lemma RotatedLogPartlyLost(position: nat, grown: string)
    requires 0 < position < |grown|
    ensures Fresh(grown, ReadWindowAsWritten(position, |grown|)) == grown[position..]
    ensures grown[..position] + Fresh(grown, ReadWindowAsWritten(position, |grown|)) == grown
  {
  }

  /**
   * With the intended window, a file that only grows between two calls is
   * read without gaps or repeats: the two reads together are the file from
   * the first offset on.
   */
  lemma GrowingFileReadOnce(position: nat, first: string, second: string)
    requires position <= |first| && first <= second
    ensures var w1 := ReadWindow(position, |first|);
      var w2 := ReadWindow(NextPosition(position, w1), |second|);
      Fresh(first, w1) + Fresh(second, w2) == second[position..]
  {
    var w1 := ReadWindow(position, |first|);
    assert NextPosition(position, w1) == |first|;
    assert first[position..] == second[position..|first|];
  }

  /** The three patterns a log line is matched against, in order. */
  datatype Patterns = Patterns(error: string -> bool, warning: string -> bool, security: string -> bool)

  /** The level a line is logged at: the error pattern beats the warning pattern, which beats the security pattern. */
  function LineLevel(line: string, p: Patterns): (level: Option<string>)
    ensures level.None? <==> !p.error(line) && !p.warning(line) && !p.security(line)
    ensures level == Some("error") <==> p.error(line)
    ensures level == Some("warning") <==> !p.error(line) && (p.warning(line) || p.security(line))
  {
    if p.error(line) then Some("error")
    else if p.warning(line) then Some("warning")
    else if p.security(line) then Some("warning")
    else None
  }

  /** The logger call for one line of a log file, if the line is significant. */
  function LineCall(line: string, source: string, kind: string, p: Patterns): Option<Logger.Call> {
    var t := PhpTrim(line);
    if Empty(t) then None
    else
      var level := LineLevel(t, p);
      if level.None? then None
      else Some(Logger.Call(level.value, "Log entry from " + kind,
        [Logger.Field("source", Logger.JStr(source)), Logger.Field("type", Logger.JStr(kind)),
         Logger.Field("entry", Logger.JStr(Logger.Prefix(t, 500)))]))
  }

  function LineCalls(lines: seq<string>, source: string, kind: string, p: Patterns): seq<Logger.Call>
    decreases |lines|
  {
    if lines == [] then []
    else
      var c := LineCall(lines[|lines| - 1], source, kind, p);
      LineCalls(lines[..|lines| - 1], source, kind, p) + (if c.Some? then [c.value] else [])
  }

  /** Each call names the source, has the line's level and carries at most 500 characters of it. */
  lemma {:induction false} LineCallsShape(lines: seq<string>, source: string, kind: string, p: Patterns)
    ensures |LineCalls(lines, source, kind, p)| <= |lines|
    ensures forall k :: 0 <= k < |LineCalls(lines, source, kind, p)| ==>
      CallShape(LineCalls(lines, source, kind, p)[k], source, kind)
    decreases |lines|
  {
    if lines != [] {
      LineCallsShape(lines[..|lines| - 1], source, kind, p);
    }
  }

  predicate CallShape(c: Logger.Call, source: string, kind: string) {
    (c.level == "error" || c.level == "warning") && c.message == "Log entry from " + kind
    && |c.context| == 3 && c.context[0] == Logger.Field("source", Logger.JStr(source))
    && c.context[2].value.JStr? && |c.context[2].value.s| <= 500
  }

  // ------------------------------------------------------------------ monitorCommands

  /** A shell history: its base name, whether it is readable, and its lines. */
  datatype History = History(name: string, readable: bool, lines: seq<string>)

  /** What a command scan finds: the new hashes and the calls for significant commands. */
  datatype Found = Found(hashes: seq<string>, calls: seq<Logger.Call>)

  function Plus(a: Found, b: Found): Found { Found(a.hashes + b.hashes, a.calls + b.calls) }

  /** One history line: skipped when blank or a comment; new when its hash is not stored; logged when significant. */
  function CommandLine(previous: seq<string>, source: string, line: string, md5: string -> string,
                       significant: string -> bool): Found {
    var t := PhpTrim(line);
    if Empty(t) || t[0] == '#' || md5(t) in previous then Found([], [])
    else Found([md5(t)], if significant(t) then [Logger.Call("info", "Command executed",
      [Logger.Field("command", Logger.JStr(Logger.Prefix(t, 200))), Logger.Field("source", Logger.JStr(source)),
       Logger.Field("type", Logger.JStr("command_execution"))])] else [])
  }

  function CommandLines(previous: seq<string>, source: string, lines: seq<string>, md5: string -> string,
                        significant: string -> bool): Found
    decreases |lines|
  {
    if lines == [] then Found([], [])
    else Plus(CommandLines(previous, source, lines[..|lines| - 1], md5, significant),
              CommandLine(previous, source, lines[|lines| - 1], md5, significant))
  }

  /** The last ten lines of every readable history. */
  function Histories(previous: seq<string>, files: seq<History>, md5: string -> string,
                     significant: string -> bool): Found
    decreases |files|
  {
    if files == [] then Found([], [])
    else
      var f := files[|files| - 1];
      Plus(Histories(previous, files[..|files| - 1], md5, significant),
           if f.readable then CommandLines(previous, f.name, Newest(f.lines, 10), md5, significant) else Found([], []))
  }

  /** Every new hash is the hash of a non-blank, non-comment line and was not stored before. */
  predicate HashesNew(hs: seq<string>, previous: seq<string>) {
    forall k :: 0 <= k < |hs| ==> hs[k] !in previous
  }

  /** Every call is an info-level command execution, and there are no more calls than new hashes. */
  predicate CallsFit(f: Found) {
    |f.calls| <= |f.hashes| && forall k :: 0 <= k < |f.calls| ==> f.calls[k].level == "info" && f.calls[k].message == "Command executed"
  }

  lemma PlusKeeps(a: Found, b: Found, previous: seq<string>)
    requires HashesNew(a.hashes, previous) && HashesNew(b.hashes, previous) && CallsFit(a) && CallsFit(b)
    ensures HashesNew(Plus(a, b).hashes, previous) && CallsFit(Plus(a, b))
  {
    var p := Plus(a, b);
    assert forall k :: 0 <= k < |p.hashes| ==> p.hashes[k] == if k < |a.hashes| then a.hashes[k] else b.hashes[k - |a.hashes|];
    assert forall k :: 0 <= k < |p.calls| ==> p.calls[k] == if k < |a.calls| then a.calls[k] else b.calls[k - |a.calls|];
  }

  lemma {:induction false} CommandLinesNew(previous: seq<string>, source: string, lines: seq<string>,
                                           md5: string -> string, significant: string -> bool)
    ensures var f := CommandLines(previous, source, lines, md5, significant); HashesNew(f.hashes, previous) && CallsFit(f)
    decreases |lines|
  {
    if lines != [] {
      CommandLinesNew(previous, source, lines[..|lines| - 1], md5, significant);
      PlusKeeps(CommandLines(previous, source, lines[..|lines| - 1], md5, significant),
                CommandLine(previous, source, lines[|lines| - 1], md5, significant), previous);
    }
  }

  /** Only hashes absent from the stored list count as new, and only new lines can be logged. */
  lemma {:induction false} HistoriesNew(previous: seq<string>, files: seq<History>, md5: string -> string,
                                        significant: string -> bool)
    ensures var f := Histories(previous, files, md5, significant); HashesNew(f.hashes, previous) && CallsFit(f)
    decreases |files|
  {
    if files != [] {
      var last := files[|files| - 1];
      HistoriesNew(previous, files[..|files| - 1], md5, significant);
      if last.readable {
        CommandLinesNew(previous, last.name, Newest(last.lines, 10), md5, significant);
      }
      PlusKeeps(Histories(previous, files[..|files| - 1], md5, significant),
                if last.readable then CommandLines(previous, last.name, Newest(last.lines, 10), md5, significant)
                else Found([], []), previous);
    }
  }

  /** The stored list after a scan: unchanged without new hashes, else the last 1000 of old and new. */
  function StoredHashes(previous: seq<string>, found: seq<string>): (r: seq<string>)
    ensures found == [] ==> r == previous
    ensures found != [] ==> |r| == Min(|previous| + |found|, 1000)
    ensures found != [] ==> r == (previous + found)[|previous| + |found| - |r|..]
    ensures found != [] && |previous| + |found| <= 1000 ==> r == previous + found
  {
    if found == [] then previous else Newest(previous + found, 1000)
  }

  // ------------------------------------------------------------------ monitorServices

  const Services: seq<string> := ["apache2", "mariadb", "smbd", "nmbd", "libvirtd"]

  /** What systemctl reports for a service: is-active and is-enabled exit codes of 0. */
  datatype Probe = Probe(active: bool, enabled: bool)

  /** A service-states.json entry. */
  datatype ServiceState = ServiceState(active: bool, enabled: bool, timestamp: int)

  /** The call for one service: a change of the active flag, or the first sighting. */
  function ServiceCall(previous: map<string, ServiceState>, service: string, probe: Probe): Option<Logger.Call> {
    if service in previous then
      var prev := previous[service];
      if prev.active != probe.active then
        var action := if probe.active then "started" else "stopped";
        Some(Logger.Call("info", "Service " + action + ": " + service,
          [Logger.Field("service", Logger.JStr(service)), Logger.Field("action", Logger.JStr(action)),
           Logger.Field("enabled", Logger.JBool(probe.enabled)),
           Logger.Field("previous_state", Logger.JStr(if prev.active then "active" else "inactive"))]))
      else None
    else
      Some(Logger.Call("debug", "Monitoring service: " + service,
        [Logger.Field("service", Logger.JStr(service)), Logger.Field("active", Logger.JBool(probe.active)),
         Logger.Field("enabled", Logger.JBool(probe.enabled))]))
  }

  /** Started/stopped is logged exactly on a change of the active flag; a new service gets a debug entry. */
  lemma ServiceCallCases(previous: map<string, ServiceState>, service: string, probe: Probe)
    ensures var c := ServiceCall(previous, service, probe);
      (service !in previous ==> c.Some? && c.value.level == "debug")
      && (service in previous ==> (c.Some? <==> previous[service].active != probe.active))
      && (service in previous && c.Some? ==> (c.value.level == "info"
          && c.value.message == "Service " + (if probe.active then "started" else "stopped") + ": " + service))
      && (c.Some? ==> Logger.Lookup(c.value.context, "enabled") == Some(Logger.JBool(probe.enabled)))
      && (service !in previous ==> Logger.Lookup(c.value.context, "active") == Some(Logger.JBool(probe.active)))
  {
    var c := ServiceCall(previous, service, probe);
    if c.Some? {
      var ctx := c.value.context;
      assert ctx[2].key == "enabled" && ctx[1].key != "enabled" && ctx[0].key != "enabled";
      assert Logger.Lookup(ctx[2..], "enabled") == Some(Logger.JBool(probe.enabled));
      assert ctx[1..][1..] == ctx[2..];
      assert Logger.Lookup(ctx[1..], "enabled") == Logger.Lookup(ctx[2..], "enabled");
    }
  }

  function ServiceCalls(previous: map<string, ServiceState>, services: seq<string>, probe: string -> Probe): seq<Logger.Call>
    decreases |services|
  {
    if services == [] then []
    else
      var s := services[|services| - 1];
      var c := ServiceCall(previous, s, probe(s));
      ServiceCalls(previous, services[..|services| - 1], probe) + (if c.Some? then [c.value] else [])
  }

  function CurrentStates(services: seq<string>, probe: string -> Probe, now: int): (m: map<string, ServiceState>)
    ensures forall s :: s in m <==> s in services
    ensures forall s :: s in m ==> m[s] == ServiceState(probe(s).active, probe(s).enabled, now)
    decreases |services|
  {
    if services == [] then map[]
    else
      var s := services[|services| - 1];
      CurrentStates(services[..|services| - 1], probe, now)[s := ServiceState(probe(s).active, probe(s).enabled, now)]
  }

  /** The loop of monitorServices over the given services: the new states and the calls to make. */
  method ProbeServices(previous: map<string, ServiceState>, services: seq<string>, probe: string -> Probe, now: int)
    returns (current: map<string, ServiceState>, calls: seq<Logger.Call>)
    ensures current == CurrentStates(services, probe, now)
    ensures calls == ServiceCalls(previous, services, probe)
  {
    current, calls := map[], [];
    for i := 0 to |services|
      invariant current == CurrentStates(services[..i], probe, now)
      invariant calls == ServiceCalls(previous, services[..i], probe)
    {
      assert services[..i + 1][..i] == services[..i];
      var s := services[i];
      var pr := probe(s);
      current := current[s := ServiceState(pr.active, pr.enabled, now)];
      var c := ServiceCall(previous, s, pr);
      if c.Some? {
        calls := calls + [c.value];
      }
    }
    assert services[..|services|] == services;
  }

  // ------------------------------------------------------------------ the daemon

  /** Which periodic tasks an iteration of the main loop runs. */
  datatype Periodic = Periodic(cleanup: bool, health: bool)

  /** Cleanup every 720th iteration (an hour of 5 s sleeps), the health check every 120th. */
  function Schedule(iteration: int): (p: Periodic)
    ensures p.cleanup ==> p.health
  {
    Periodic(iteration % 720 == 0, iteration % 120 == 0)
  }

  class LoggingDaemon {
    /** monitorLogFile's static $filePositions. */
    var filePositions: map<string, nat>
    /** command-history.json */
    var commandHistory: seq<string>
    /** service-states.json */
    var serviceStates: map<string, ServiceState>
    /** last-update-check.txt, when it exists */
    var lastUpdateCheck: Option<string>
    /** The main loop's counter. */
    var iteration: nat
    /** Everything handed to the logger, in order. */
    var logged: seq<Logger.Call>

    constructor ()
      ensures filePositions == map[] && commandHistory == [] && serviceStates == map[]
      ensures lastUpdateCheck.None? && iteration == 0 && logged == []
    {
      filePositions, commandHistory, serviceStates := map[], [], map[];
      lastUpdateCheck, iteration, logged := None, 0, [];
    }

    /**
     * monitorLogFile: read what the file gained since the stored offset,
     * remember the new size, and log each significant line of it. With
     * `rereadRotated` false a file no longer than the offset is skipped, as
     * the code does; with it true a shorter file is read from its start.
     */
    method MonitorLogFile(path: string, kind: string, file: Option<string>, p: Patterns, rereadRotated: bool)
      modifies this`filePositions, this`logged
      ensures var position := Position(old(filePositions), path);
        file.None? || |file.value| == position || (!rereadRotated && |file.value| < position) ==>
          filePositions == old(filePositions) && logged == old(logged)
      ensures var position := Position(old(filePositions), path);
        file.Some? && |file.value| > position ==> (filePositions == old(filePositions)[path := |file.value|]
          && logged == old(logged) + TailCalls(file.value[position..], Basename(path), kind, p))
      ensures var position := Position(old(filePositions), path);
        rereadRotated && file.Some? && |file.value| != position ==> (filePositions == old(filePositions)[path := |file.value|]
          && logged == old(logged) + TailCalls(Gained(position, file.value), Basename(path), kind, p))
    {
      var position := Position(filePositions, path);
      if file.None? {
        return;
      }
      var w := if rereadRotated then ReadWindow(position, |file.value|) else ReadWindowAsWritten(position, |file.value|);
      if w.None? {
        return;
      }
      var gained := file.value[w.value.start..w.value.stop];
      assert rereadRotated ==> gained == Gained(position, file.value);
      assert |file.value| > position ==> gained == file.value[position..];
      filePositions := filePositions[path := |file.value|];
      var source := Basename(path);
      if Empty(gained) {
        assert TailCalls(gained, source, kind, p) == [];
        return;
      }
      var lines := Split(PhpTrim(gained), '\n');
      assert TailCalls(gained, source, kind, p) == LineCalls(lines, source, kind, p);
      LogLines(lines, source, kind, p);
    }

    /** monitorLogFile's loop over the new lines: one call per significant line, in order. */
    method LogLines(lines: seq<string>, source: string, kind: string, p: Patterns)
      modifies this`logged
      ensures logged == old(logged) + LineCalls(lines, source, kind, p)
    {
      for i := 0 to |lines|
        invariant logged == old(logged) + LineCalls(lines[..i], source, kind, p)
      {
        assert lines[..i + 1][..i] == lines[..i];
        var c := LineCall(lines[i], source, kind, p);
        if c.Some? {
          logged := logged + [c.value];
        }
      }
      assert lines[..|lines|] == lines;
    }

    /**
     * monitorCommands: scan the last ten lines of each readable history,
     * log significant new commands, and store the last 1000 hashes of the
     * old list and the new ones when there are new ones.
     */
    method MonitorCommands(files: seq<History>, md5: string -> string, significant: string -> bool)
      modifies this`commandHistory, this`logged
      ensures var f := Histories(old(commandHistory), files, md5, significant);
        commandHistory == StoredHashes(old(commandHistory), f.hashes) && logged == old(logged) + f.calls
    {
      var previous := commandHistory;
      var found := Found([], []);
      for i := 0 to |files|
        invariant found == Histories(previous, files[..i], md5, significant)
      {
        assert files[..i + 1][..i] == files[..i];
        if files[i].readable {
          var recent := Newest(files[i].lines, 10);
          var inFile := Found([], []);
          for j := 0 to |recent|
            invariant inFile == CommandLines(previous, files[i].name, recent[..j], md5, significant)
          {
            assert recent[..j + 1][..j] == recent[..j];
            inFile := Plus(inFile, CommandLine(previous, files[i].name, recent[j], md5, significant));
          }
          assert recent[..|recent|] == recent;
          found := Plus(found, inFile);
        } else {
          found := Plus(found, Found([], []));
        }
      }
      assert files[..|files|] == files;
      logged := logged + found.calls;
      commandHistory := StoredHashes(previous, found.hashes);
    }

    /**
     * monitorServices: probe the five services, log changes and first
     * sightings, and rewrite the state file with the current states.
     */
    method MonitorServices(probe: string -> Probe, now: int)
      modifies this`serviceStates, this`logged
      ensures serviceStates == CurrentStates(Services, probe, now)
      ensures logged == old(logged) + ServiceCalls(old(serviceStates), Services, probe)
    {
      var current, calls := ProbeServices(serviceStates, Services, probe, now);
      serviceStates := current;
      logged := logged + calls;
    }

    /**
     * monitorUpdates: nothing before six hours have passed since the stored
     * check time; otherwise the new time is stored first, then a positive
     * count of upgradable packages and every update log newer than the last
     * check are logged.
     */
    method MonitorUpdates(now: int, aptCount: Option<string>, updateLogs: seq<UpdateLog>)
      modifies this`lastUpdateCheck, this`logged
      ensures var last := LastCheck(old(lastUpdateCheck));
        (now - last < 21600 ==> lastUpdateCheck == old(lastUpdateCheck) && logged == old(logged))
        && (now - last >= 21600 ==> (lastUpdateCheck == Some(IntToString(now))
            && logged == old(logged) + UpdateCalls(last, aptCount, updateLogs)))
    {
      var last := LastCheck(lastUpdateCheck);
      if now - last < 21600 {
        return;
      }
      lastUpdateCheck := Some(IntToString(now));
      var calls := if aptCount.Some? && SystemStats.IntCast(PhpTrim(aptCount.value)) > 0
        then [Logger.Call("info", "System updates available",
               [Logger.Field("updates_count", Logger.JInt(SystemStats.IntCast(PhpTrim(aptCount.value)))),
                Logger.Field("type", Logger.JStr("system_update_check"))])]
        else [];
      for i := 0 to |updateLogs|
        invariant calls == UpdateCalls(last, aptCount, updateLogs[..i])
      {
        assert updateLogs[..i + 1][..i] == updateLogs[..i];
        if updateLogs[i].mtime > last {
          calls := calls + [UpdateLogCall(updateLogs[i])];
        }
      }
      assert updateLogs[..|updateLogs|] == updateLogs;
      logged := logged + calls;
    }

    /** One pass of the main loop's counter and its periodic tasks. */
    method Tick() returns (p: Periodic)
      modifies this`iteration
      ensures iteration == old(iteration) + 1 && p == Schedule(iteration)
    {
      iteration := iteration + 1;
      p := Schedule(iteration);
    }
  }

  /** The stored check time: (int) of the trimmed file, 0 when there is no file. */
  function LastCheck(content: Option<string>): int {
    if content.Some? then SystemStats.IntCast(PhpTrim(content.value)) else 0
  }

  /** An update-*.log file: its base name, modification time and that time as date() renders it. */
  datatype UpdateLog = UpdateLog(name: string, mtime: int, date: string)

  function UpdateLogCall(u: UpdateLog): Logger.Call {
    Logger.Call("info", "TSO update executed",
      [Logger.Field("log_file", Logger.JStr(u.name)), Logger.Field("timestamp", Logger.JStr(u.date)),
       Logger.Field("type", Logger.JStr("tso_update"))])
  }

  /** The calls of one update check: the upgradable count when positive, then each newer update log. */
  function UpdateCalls(last: int, aptCount: Option<string>, logs: seq<UpdateLog>): seq<Logger.Call>
    decreases |logs|
  {
    if logs == [] then
      if aptCount.Some? && SystemStats.IntCast(PhpTrim(aptCount.value)) > 0
      then [Logger.Call("info", "System updates available",
             [Logger.Field("updates_count", Logger.JInt(SystemStats.IntCast(PhpTrim(aptCount.value)))),
              Logger.Field("type", Logger.JStr("system_update_check"))])]
      else []
    else
      var u := logs[|logs| - 1];
      UpdateCalls(last, aptCount, logs[..|logs| - 1]) + (if u.mtime > last then [UpdateLogCall(u)] else [])
  }

  /** Only update logs modified after the last check are reported, one call each. */
  lemma {:induction false} UpdateCallsCount(last: int, logs: seq<UpdateLog>)
    ensures |UpdateCalls(last, None, logs)| == NewerCount(last, logs)
    decreases |logs|
  {
    if logs != [] {
      UpdateCallsCount(last, logs[..|logs| - 1]);
    }
  }

  function NewerCount(last: int, logs: seq<UpdateLog>): nat
    decreases |logs|
  {
    if logs == [] then 0 else NewerCount(last, logs[..|logs| - 1]) + (if logs[|logs| - 1].mtime > last then 1 else 0)
  }

  /** Over the first n iterations the cleanup runs n / 720 times and the health check n / 120 times. */
  method CountPeriodic(n: nat) returns (cleanups: nat, checks: nat)
    ensures cleanups == n / 720 && checks == n / 120
  {
    cleanups, checks := 0, 0;
    var i := 0;
    while i < n
      invariant 0 <= i <= n
      invariant cleanups == i / 720 && checks == i / 120
    {
      i := i + 1;
      var p := Schedule(i);
      if p.cleanup {
        cleanups := cleanups + 1;
      }
      if p.health {
        checks := checks + 1;
      }
    }
  }
}
