# tso home-server panel: a verified model of its core

tso is a web panel for a home server. A Go backend (`go-backend/`) serves the JSON API for:
- virtual machines driven by QEMU, with their snapshots, consoles and templates;
- Samba shares, storage, network throttling and temperatures;
- system information, alert rules and users.

An older PHP layer (`src/`, `public/api/`, `scripts/`) covers the same ground for VMs, shares, users, logging and system statistics. A TypeScript client (`frontend/`) talks to the API.

This project models the decision logic of those components in Dafny and proves properties of it:
- what each handler answers;
- which rows it inserts or changes and which it leaves alone;
- which command line it builds;
- which text it renders or parses.

One module models one source file:

- `Vms` (vms.dfy): go-backend/vms.go. The QEMU command line, port allocation, the VM table and its start, stop, restart, update and backup handlers, and the MAC, UUID and password formats.
- `VmSnapshots` (vm_snapshots.dfy): go-backend/vmsnapshots.go. The snapshot dispatch between QMP and qemu-img, the QMP scripts, and the parsing of the snapshot listing.
- `VmConsole` (vm_console.dfy): go-backend/vmconsole.go. The running gates, the VNC port default, the WebSocket/VNC proxy as a state machine, and the key table.
- `VmTemplates` (vm_templates.dfy): go-backend/vmtemplates.go. Saving a VM as a template, instantiating a template, and the cloud-init documents and ISO command.
- `VmPhp` (vm_php.dfy): src/VM.php. Port allocation, create defaults, update, start, stop, restart and status, the SPICE file, and the QEMU command.
- `TerminalWs` (terminal_ws.dfy): public/api/terminal-ws.php. WebSocket framing and masking as in section 5.2 of RFC 6455.
- `Network` (network.dfy): go-backend/network.go. Subnet comparison, the client address, history buffers and throttle bookkeeping.
- `MainConfig` (main_config.dfy): go-backend/main.go. The .env loader and the CORS origin list.
- `Shares` (shares.dfy): go-backend/shares.go. Share validation, permissions, the smb.conf rendering and the toggles.
- `SharePhp` (share_php.dfy): src/Share.php. The same operations as `Shares`, in their PHP form.
- `Storage` (storage.dfy): go-backend/storage.go. Mount path decoding, the mount filter, the partition and disk listings, and the disk type.
- `SystemInfo` (system_info.dfy): go-backend/system.go. Uptime, meminfo and swap, the control action table, and the byte-unit choice.
- `SystemStats` (system_stats.dfy): public/api/system-stats.php. Uptime, memory, and the network interface listing.
- `Temperature` (temperature.dfy): go-backend/temperature.go. Thermal zones, hwmon sensors, classification, and disk temperatures.
- `Alerts` (alerts.dfy): go-backend/alerts.go. Rule validation, the current values, the trigger rule, and the message.
- `Logger` (logger.dfy): src/Logger.php. The log query builder and the log, logCommand and exception entries.
- `LoggingDaemon` (logging_daemon.dfy): scripts/logging-daemon.php. The log-file window, and the command, service and update monitors with their schedule.
- `ErrorHandling` (error_handler.dfy): src/ErrorHandler.php.
- `TerminalExec` (terminal_exec.dfy): public/api/terminal-exec.php.
- `VmControl` (vm_control.dfy): public/api/vm-control.php.
- `Users` (users.dfy): src/User.php and go-backend/users.go.
- `ApiClient` (api_client.dfy): frontend/src/api/client.ts.
- Helper modules:
  - `Text` (text.dfy): Option and Result, the Go, PHP and JavaScript trims, splitting, joining and fields, decimal and hex formatting, and ASCII case folding.
  - `Bytes` (bytes.dfy): octets.

The environment of the source enters every operation as a parameter:
- file contents;
- command outcomes and outputs;
- random draws;
- clocks;
- session values;
- database failures.

Tables the handlers update become `map` fields of classes whose methods change them.

## Model

| member | source | states |
|---|---|---|
| Alerts.Validate | go-backend/alerts.go:91-125 | accepted iff the name is non-empty, the condition is cpu/memory/disk/temperature/swap, the comparison (empty means gt) is gt/lt/eq and the severity (empty means warning) is info/warning/critical; the refusals come in the handler's order with its messages; an accepted rule has its defaults filled in |
| Alerts.ValidateIdempotent | go-backend/alerts.go:91-125 | a validated rule is valid on every field, and validating it again changes nothing |
| Alerts.UpdateReply | go-backend/alerts.go:183-187 | corrected: 404 exactly when no rule has the id |
| Alerts.UpdateReplyAsWritten | go-backend/alerts.go:183-187 | as written: 404 exactly when the id has no rule or saving leaves the rule as it was (no row affected), and success otherwise |
| Alerts.UnchangedUpdateNotFound | go-backend/alerts.go:183-187 | saving a rule with its own values is answered 404 as written, although the rule exists; the corrected reply is success |
| Alerts.UpdateRepliesAgree | go-backend/alerts.go:183-187 | the two replies agree whenever the update changes the row or the id is missing |
| Alerts.AlertStore.constructor | go-backend/alerts.go:135 | no rules stored |
| Alerts.AlertStore.Create | go-backend/alerts.go:77-149 | 401 without a session user, 400 for a body that does not decode or fails a check, then 500 "Database error" when the connection or the INSERT fails (`dbOk` false), all without change; otherwise the validated rule is stored active, owned by the session user, under a fresh id |
| Alerts.AlertStore.Update | go-backend/alerts.go:152-193 | 400 for a non-integer id or a bad body, then 500 "Database error" when the connection or the UPDATE fails, all without change; otherwise every column of an existing rule is written from the body, unchecked, and the reply is, with `asWritten`, the code's reply from the changed-row count (404 also for an unchanged save, see Findings) and otherwise the corrected one, 404 exactly for a missing id |
| Alerts.AlertStore.Delete | go-backend/alerts.go:195-226 | 400 for a non-integer id; 500 "Database error" when the connection or the DELETE fails, without change; 404 when no rule has it; otherwise exactly that rule is removed |
| Alerts.ValueFor | go-backend/alerts.go:261-264 | the temperature always has a value; an unknown condition type never has one |
| Alerts.CpuValue | go-backend/alerts.go:308-318 | a cpu value exists iff the load and a positive core count are known; it is load/cores*100 when that is at most 100, and exactly 100 when it exceeds 100 |
| Alerts.RootUsage | go-backend/alerts.go:333-339 | a disk value exists iff some partition is mounted at "/" |
| Alerts.RootDiskUsage | go-backend/alerts.go:333-339 | the loop takes the usage of the first partition mounted at "/" |
| Alerts.MaxTemperature | go-backend/alerts.go:342-354 | the result is 0 or one of the readings, is never negative, and is at least every thermal-zone and hwmon reading |
| Alerts.CurrentValues | go-backend/alerts.go:305-358 | cpu, memory, swap and disk as above, and the temperature the highest reading, at least 0 |
| Alerts.ExactlyOneComparison | go-backend/alerts.go:268-275 | for any value and threshold exactly one of gt, lt and eq fires |
| Alerts.Unit | go-backend/alerts.go:371-374 | the unit is °C exactly for temperature rules |
| Alerts.Message | go-backend/alerts.go:360-391 | the message starts "<type text> <exceeded/fell below/equals> threshold: " |
| Alerts.MessagesDistinguishComparisons | go-backend/alerts.go:360-391 | for the same rule type and numbers, the three comparisons give three different messages |
| Alerts.AlertFor | go-backend/alerts.go:253-289 | a rule raises an alert iff it is active, its condition has a value and its comparison fires; the alert carries the rule id, the current value, the threshold and the severity |
| Alerts.ActiveAlerts | go-backend/alerts.go:253-290 | the loop collects exactly the alerts of the rules, in order |
| Alerts.AlertsAppend | go-backend/alerts.go:253-290 | the alerts of a list of rules are the alerts of its parts, in order |
| Alerts.AlertsSingle | go-backend/alerts.go:253-289 | a single rule raises at most one alert, and one exactly when it fires |
| Alerts.UnknownConditionSilent | go-backend/alerts.go:261-264 | a rule on an unknown condition type never raises an alert |
| LoggingDaemon.ReadWindowAsWritten | scripts/logging-daemon.php:406-418 | as written: nothing is read iff the file is no longer than the stored offset; otherwise the bytes from the offset to the end |
| LoggingDaemon.ReadWindow | scripts/logging-daemon.php:406-421 | corrected: nothing is read iff the size equals the offset; a grown file is read as written; a file shorter than the offset (rotated or truncated) is read from its start |
| LoggingDaemon.Gained | scripts/logging-daemon.php:406-421 | what a call reads: the file from the stored offset when it grew, the whole file when it shrank, nothing when the size is unchanged |
| LoggingDaemon.RotatedLogIgnored | scripts/logging-daemon.php:406-410 | as written, a file shorter than the offset is not read and the offset stays; the corrected window reads the whole file and moves the offset to its size |
| LoggingDaemon.RotatedLogPartlyLost | scripts/logging-daemon.php:416-421 | as written, a rotated file that has grown past the old offset is read only from there, losing its first part |
| LoggingDaemon.GrowingFileReadOnce | scripts/logging-daemon.php:396-421 | with the corrected window, a file that only grows between two calls is read without gap or repeat |
| LoggingDaemon.LineLevel | scripts/logging-daemon.php:436-454 | no level iff no pattern matches; "error" iff the error pattern matches; "warning" iff it does not but the warning or the security pattern does |
| LoggingDaemon.LineCallsShape | scripts/logging-daemon.php:428-463 | at most one call per line; each is at error or warning level, says "Log entry from <type>", names the source and carries at most 500 characters of the line |
| LoggingDaemon.CommandLinesNew | scripts/logging-daemon.php:260-281 | every hash the line loop adds was not stored before, and every call it makes is one info "Command executed" per new hash at most |
| LoggingDaemon.HistoriesNew | scripts/logging-daemon.php:232-282 | over all readable histories, only hashes absent from the stored list are new, and only new lines are logged |
| LoggingDaemon.StoredHashes | scripts/logging-daemon.php:284-289 | without new hashes the stored list is unchanged; otherwise it is the newest min(old+new, 1000) of the old list followed by the new hashes |
| LoggingDaemon.ServiceCallCases | scripts/logging-daemon.php:204-223 | a first sighting gets a debug entry with the active and enabled flags as JSON booleans; a known service is logged iff its active flag changed, as "Service started/stopped: <name>" at info with the enabled flag as a JSON boolean |
| LoggingDaemon.CurrentStates | scripts/logging-daemon.php:185-201 | the new state file holds exactly the probed services, each with its active and enabled flags and the current time |
| LoggingDaemon.ProbeServices | scripts/logging-daemon.php:184-224 | the service loop produces the current states and the started/stopped/first-sighting calls, service by service, whose contexts carry the probed flags as JSON booleans |
| LoggingDaemon.Schedule | scripts/logging-daemon.php:122-128 | cleanup on every 720th iteration, health check on every 120th, so a cleanup iteration is always a health-check iteration |
| LoggingDaemon.LoggingDaemon.constructor | scripts/logging-daemon.php:78-88 | no offsets, no stored hashes or service states, no update check yet, iteration 0 |
| LoggingDaemon.LoggingDaemon.MonitorLogFile | scripts/logging-daemon.php:396-464 | a missing file or one whose size equals the offset changes nothing, nor, as the code does (`rereadRotated` false), one shorter than the offset; a longer file has its tail from the offset read; with `rereadRotated` (the corrected reading, see Findings) a shorter file is read from its start; whenever something is read the offset becomes the size and each significant line of it is logged once, in order |
| LoggingDaemon.LoggingDaemon.LogLines | scripts/logging-daemon.php:435-463 | the line loop appends one call per significant non-blank line, in order |
| LoggingDaemon.LoggingDaemon.MonitorCommands | scripts/logging-daemon.php:232-289 | the calls for significant new commands in the last ten lines of each readable history are logged, and the stored list becomes StoredHashes of the old list and the new hashes |
| LoggingDaemon.LoggingDaemon.MonitorServices | scripts/logging-daemon.php:171-227 | the state file becomes the current states of apache2, mariadb, smbd, nmbd and libvirtd, and the changes and first sightings are logged, with the probed flags as JSON booleans |
| LoggingDaemon.LoggingDaemon.MonitorUpdates | scripts/logging-daemon.php:294-337 | within six hours (21600 s) of the stored check nothing changes; otherwise the time is stored and a positive upgradable count and each newer update log are logged |
| LoggingDaemon.LoggingDaemon.Tick | scripts/logging-daemon.php:91-128 | the iteration counter goes up by one and the periodic tasks follow the schedule of the new count |
| LoggingDaemon.UpdateCallsCount | scripts/logging-daemon.php:323-336 | with no upgradable count, exactly one call per update log modified after the last check |
| LoggingDaemon.CountPeriodic | scripts/logging-daemon.php:88-128 | over n iterations the cleanup runs n/720 times and the health check n/120 times |
| Logger.LookupSnoc | src/Logger.php:245-250 | adding a pair to a PHP array: a key that is already present keeps its value, otherwise the new pair decides |
| Logger.Put | src/Logger.php:63 | assigning a key grows the array by one exactly when the key is new |
| Logger.PutLookup | src/Logger.php:63 | after an assignment the key reads back the new value and every other key reads as before |
| Logger.MergeLookup | src/Logger.php:297-300 | in array_merge the later array wins: a key it has reads its last value there, any other key reads as in the first array |
| Logger.EntryOf | src/Logger.php:77-87 | the stored row has the given level and message; an explicit user id wins over the session's; an empty context is stored as NULL; the address is REMOTE_ADDR or "unknown" |
| Logger.FileLineIsOneLine | src/Logger.php:102-112 | the entry appended to the day's file is exactly one line, ending in its only newline, when the parts hold none |
| Logger.HeadOneLine | src/Logger.php:102-108 | the "[time] [LEVEL] message" head of a file entry holds no newline |
| Logger.AppLog.constructor | src/Logger.php:12-21 | no rows, no file lines, no error_log lines |
| Logger.AppLog.Log | src/Logger.php:77-120 | always true; the row goes to system_logs unless the INSERT fails, in which case "Failed to log to database: …" goes to error_log; the file line is written either way; an error-level entry is also copied to error_log |
| Logger.AppLog.LogCommand | src/Logger.php:238-257 | one log() call with the level, message and context of a command: nothing extra in error_log apart from a database failure |
| Logger.AppLog.LogException | src/Logger.php:61-71 | one error-level log() call with the exception's message and details, which therefore also reaches error_log |
| Logger.Prefix | src/Logger.php:241 | substr($s, 0, $n): the first min(len, n) characters of the text |
| Logger.CommandCall | src/Logger.php:252-256 | level info for return code 0 and warning otherwise; the message is "Command executed: " and the command cut to 200 characters |
| Logger.CommandBaseLookup | src/Logger.php:239-243 | the leading pairs carry the type, the command cut to 500 characters and the return code, and no output keys |
| Logger.CommandContext | src/Logger.php:239-251 | the context holds type, command (500 chars) and return code; output_length whenever output was given; the output cut to 1000 characters only for a non-zero return code |
| Logger.ServiceCall | src/Logger.php:262-277 | "Service <action>: <service>" at info, with four context pairs when a status is given and three otherwise |
| Logger.ServiceContext | src/Logger.php:263-271 | the context holds the service and action, and the status exactly when one is given |
| Logger.PageAccessCall | src/Logger.php:281-290 | "Page accessed: <method> <page>" at debug, with the page and the method in the context |
| Logger.UpdateCall | src/Logger.php:296-305 | "System update: <type>" at info |
| Logger.UpdateContext | src/Logger.php:297-300 | a detail overrides the base pairs; without an update_type detail the argument shows |
| Logger.ExceptionCall | src/Logger.php:61-71 | error level, the exception's message, and a non-empty context |
| Logger.ExceptionContext | src/Logger.php:61-69 | "exception" reads the class, file, line and trace; every other key of the caller's context is kept |
| Logger.ClauseMarks | src/Logger.php:129-154 | each filter condition has as many placeholders as the parameters it adds (two for search) |
| Logger.BuildFilter | src/Logger.php:129-154 | the conditions and parameters are, in order, level, user_id, start_date, end_date, search, each present iff its filter is non-empty, with `%term%` twice for the search |
| Logger.NoFiltersNoWhere | src/Logger.php:156 | there is no WHERE clause iff no filter has a non-empty value, and there are never more than five conditions |
| Logger.WherePlaceholders | src/Logger.php:129-156 | the WHERE clause has exactly as many `?` as there are filter parameters |
| Logger.LogsQuery | src/Logger.php:125-171 | getLogs: the statement is the select, the WHERE clause and ORDER/LIMIT/OFFSET; the parameters are the filter's then limit and offset; placeholders and parameters match one for one |
| Logger.CountQuery | src/Logger.php:174-212 | getLogCount: the same conditions and parameters without limit and offset; placeholders and parameters match one for one |
| Logger.SearchParams | src/Logger.php:149-154 | a search adds the last condition, with the `%term%` pattern as the last two parameters |
| MainConfig.ParseEnvBody | go-backend/main.go:394-405 | no assignment without "=" or with an empty key; a read value neither starts nor ends with a quote character |
| MainConfig.ParseEnvLine | go-backend/main.go:385-405 | a blank line or a comment sets nothing, and every assignment has a non-empty key |
| MainConfig.ParsePlainBody | go-backend/main.go:394-405 | KEY=VALUE with a trimmed, quote-free key and value reads back as exactly that assignment |
| MainConfig.ParsePlainLine | go-backend/main.go:385-405 | writing a plain `KEY=VALUE` line and reading it back gives the same assignment |
| MainConfig.ParseExportLine | go-backend/main.go:389-391 | an `export ` prefix changes nothing in what the line assigns |
| MainConfig.SetVariablesKept | go-backend/main.go:407-411 | a variable that already holds a non-empty value is never overwritten, whatever the file says |
| MainConfig.VariablesNeverRemoved | go-backend/main.go:376-419 | the loader only adds or sets variables: none disappears |
| MainConfig.PlainLineSets | go-backend/main.go:394-413 | a plain line sets an unset or empty variable to its value and touches nothing else |
| MainConfig.Environment.constructor | go-backend/main.go:343 | the environment starts as given |
| MainConfig.Environment.LoadEnvFile | go-backend/main.go:376-419 | a file that cannot be opened is an error and changes nothing; otherwise every line of it is applied in order |
| MainConfig.AppendIfMissing | go-backend/main.go:513-523 | an empty value or a case-insensitive duplicate leaves the list as it is; anything else is appended last |
| MainConfig.AppendedNoDuplicates | go-backend/main.go:513-523 | appendIfMissing keeps the list free of entries that differ only in case |
| MainConfig.AppendAllNoDuplicates | go-backend/main.go:513-523 | so does any sequence of appendIfMissing calls |
| MainConfig.AppendAllContents | go-backend/main.go:513-523 | the old list stays a prefix, every entry comes from the list or the values, and every non-empty value is present up to case |
| MainConfig.NonEmptyTrimmed | go-backend/main.go:472-479 | the parts kept from ALLOWED_ORIGINS are all non-empty |
| MainConfig.AddOriginForHost | go-backend/main.go:501-511 | a blank host or localhost adds nothing; otherwise http://host and, with a port, http://host:port are appended if missing |
| MainConfig.OriginsFromParts | go-backend/main.go:472-479 | the loop over the comma parts appends each trimmed non-empty part if missing |
| MainConfig.DefaultOriginList | go-backend/main.go:483-492 | the loop over the defaults appends each of the four localhost origins if missing |
| MainConfig.BuildAllowedOrigins | go-backend/main.go:470-498 | ALLOWED_ORIGINS when it is non-blank; otherwise the defaults, then the hostname's origins, then the server IP's |
| MainConfig.AllowedOriginsDistinct | go-backend/main.go:470-523 | the origin list never holds two entries that differ only in case |
| MainConfig.AllowedOriginsFromEnv | go-backend/main.go:471-480 | with ALLOWED_ORIGINS set, the list holds its trimmed non-empty parts and nothing else |
| MainConfig.DistinctValuesKept | go-backend/main.go:513-523 | non-empty values without duplicates up to case are all kept, in order |
| MainConfig.DefaultOriginsDistinct | go-backend/main.go:483-488 | the four defaults are non-empty and distinct up to case |
| MainConfig.DefaultOriginsKept | go-backend/main.go:483-492 | so the list built from them is exactly the four defaults, in order |
| MainConfig.DefaultsFirst | go-backend/main.go:482-497 | without ALLOWED_ORIGINS the list starts with the four defaults, in their order |
| MainConfig.IsOriginAllowed | go-backend/main.go:461-468 | true iff the origin equals some listed origin up to ASCII case |
| MainConfig.WithCors | go-backend/main.go:431-459 | OPTIONS is answered by the wrapper itself (204) and never reaches the handler; the five CORS headers are set iff the origin is non-empty, not "null", and `*` or the origin itself is listed |
| MainConfig.FormatHostWithPortParts | go-backend/main.go:421-429 | no host gives ""; with port "" or "80" the result is the bare host; otherwise splitting at ':' gives back the host and the port |
| MainConfig.FormatHostWithPort | go-backend/main.go:421-429 | empty iff the host is empty; the host is always a prefix; something is appended iff there is a host and a port other than "" and "80" |
| Network.SplitQuad | go-backend/network.go:295-296 | a dotted quad a.b.c.d whose parts hold no dot splits on "." into exactly its four parts |
| Network.SameNetworkOfQuads | go-backend/network.go:294-303 | two dotted quads are judged to be in the same network iff their first three octets are equal (the fourth never matters) |
| Network.NoDotNoNetwork | go-backend/network.go:297-299 | an address without a dot (IPv6, a host name) is never in the same network as anything, in either argument position |
| Network.ForwardedFirstHop | go-backend/network.go:239-242 | with an X-Forwarded-For chain the client address is the first hop, trimmed, whatever X-Real-IP and RemoteAddr say |
| Network.ClientIP | go-backend/network.go:237-255 | X-Forwarded-For wins and gives its first hop trimmed; without it X-Real-IP as sent; without both the remote address's host |
| Network.ForwardedSingle | go-backend/network.go:239-242 | a single X-Forwarded-For address is taken whole, trimmed |
| Network.RemoteAddrV4 | go-backend/network.go:247-255 | without proxy headers, RemoteAddr host:port yields the host |
| Network.RemoteAddrV6 | go-backend/network.go:247-255 | without proxy headers, RemoteAddr [host]:port yields the host without its brackets |
| Network.InterfaceUsedByIP | go-backend/network.go:258-291 | the result is true iff `ip addr show` succeeded and either some trimmed `inet ` line's address shares the client's /24, or the route output contains "dev <iface>" |
| Network.ScanInetLines | go-backend/network.go:268-282 | the line loop returns true iff some line of the output is an `inet ` line in the client's network |
| Network.DevTarget | go-backend/network.go:1563-1568 | a non-empty result is the field right after some "dev" field |
| Network.DevTargetFirst | go-backend/network.go:1563-1568 | the first "dev" that has a successor decides the interface |
| Network.DefaultInterface | go-backend/network.go:1555-1571 | "" when the command fails, otherwise the field after the first "dev" that has a successor, "" when there is none |
| Network.DevTargetNone | go-backend/network.go:1563-1570 | without a "dev" followed by another field the default interface is "" |
| Network.Rate | go-backend/network.go:1380-1398 | a non-positive limit gives "1000mbit"; a positive one gives max(1, limit*8/1000) followed by "kbit", so 125 B/s and above is exactly limit*8/1000 |
| Network.ClassIdHex | go-backend/network.go:1369 | every class id below 65536 prints as ten characters: "0x0001" then the id as four hex digits |
| Network.ThrottleGate | go-backend/network.go:1262-1322 | the gate opens iff the pid is positive, /proc/<pid> exists, an interface is given or found on the default route, one of the two net_cls mounts exists, and the interface is already initialised or initialising succeeds; a non-positive pid is refused as InvalidPid first |
| Network.CgroupFailure | go-backend/network.go:1339-1413 | no failure iff (the pid was already throttled or mkdir succeeds), the write of `tasks` or of `cgroup.procs` succeeds, the classid write succeeds and `tc class add` succeeds |
| Network.NetworkMonitor.constructor | go-backend/network.go:27-50 | all histories, events and throttles start empty, the class counter at 100, and the monitor invariant holds |
| Network.NetworkMonitor.AddBandwidthHistory | go-backend/network.go:1208-1226 | the history becomes the newest 120 of the old history plus the entry, i.e. always the newest 120 of every reading ever recorded |
| Network.NetworkMonitor.LogEvent | go-backend/network.go:1609-1630 | the event id grows by one; the new event with that id goes first and the list is cut to 500, so ids stay consecutive newest-first and the length is min(id, 500) |
| Network.NetworkMonitor.AddProcessHistory | go-backend/network.go:647-685 | the pid's history gains the entry and keeps its newest 120; with more than 100 pids the one whose history starts earliest is dropped unless it is pid 0; every history stays 1..120 long |
| Network.NetworkMonitor.EvictOldest | go-backend/network.go:670-684 | either nothing changes or exactly one non-zero pid with the earliest first timestamp is removed; without pid 0 one pid is always removed |
| Network.OldestPid | go-backend/network.go:673-680 | a non-zero result is a pid whose first entry is no later than any other history's first entry; 0 means no history is non-empty, or pid 0 is the oldest |
| Network.StagedCapped | go-backend/network.go:659-667 | the append-and-cut step keeps every tracked history between 1 and 120 entries |
| Network.NetworkMonitor.SetProcessThrottle | go-backend/network.go:1249-1443 | the gates refuse in the handler's order and leave the state alone; otherwise the interface is marked initialised and the counter moves only for a new pid; success iff every cgroup/tc step succeeds; then the throttle (reused or fresh class id, cgroup path) is stored under the pid and a throttle_set event is logged; class ids stay distinct and below the counter |
| Network.NetworkMonitor.ApplyThrottle | go-backend/network.go:1324-1443 | after the gates: success iff no cgroup/tc step fails; the stored throttle carries the class id for the pid and the cgroup path; a failure reports the first failing step and changes neither map nor log |
| Network.NetworkMonitor.AllocateClassId | go-backend/network.go:1327-1335 | an already throttled pid keeps its class id; a new pid gets the counter, which moves on by one, and that id exceeds every id in use |
| Network.NetworkMonitor.InstallThrottle | go-backend/network.go:1433 | the map gains the throttle under its pid and class ids stay distinct, from 100 up to the counter |
| Network.NetworkMonitor.RemoveProcessThrottle | go-backend/network.go:1446-1481 | a pid that does not parse gives 400 "Invalid PID"; an unthrottled pid gives "Process is not throttled" and nothing changes; otherwise exactly that pid's throttle is removed and a "throttle_removed" event naming the process and pid is put first in the event list, cut to 500 |
| Network.NetworkMonitor.Toggle | go-backend/network.go:183-235 | only "up"/"down" are accepted; the toggle is refused as the active connection iff it is a non-forced "down" of an interface the client's address reaches us through; the two refusals leave the events untouched; otherwise the toggle succeeds iff `ip link set` succeeds, and the event put first (list cut to 500) is "interface_toggle" "Interface set to <action>", or "error" "Failed to set interface <action>" with the command's output |
| SharePhp.OrElse | src/Share.php:71 | `$data[c] ?? fallback` is the request's value when it is present and not null, the fallback otherwise |
| SharePhp.TrailingNewlineAccepted | src/Share.php:61-62 | as written the pattern accepts "docs\n", which is not a valid name and puts a line break into its smb.conf section header |
| SharePhp.NamePatternAsWritten | src/Share.php:61 | as written: every valid name passes, a name passing without a final newline is valid, and every character but the last is a name character |
| SharePhp.NamePatternAgrees | src/Share.php:61 | every valid name passes the pattern as written, and on names without a newline the pattern and the intended test agree |
| SharePhp.ValidNameHeader | src/Share.php:61 | a name of letters, digits, `-` and `_` gives a one-line section header with no bracket inside |
| SharePhp.NormalizeBool | src/Share.php:91-106 | create's normalisation is always 0 or 1: the default for null or "", the bool itself, 1 iff an int is non-zero, and 0 exactly for the trimmed, lower-cased false words "", "0", "false" and "no" |
| SharePhp.UpdateBool | src/Share.php:154-169 | update's normalisation keeps null as null and otherwise gives 0 or 1, with the same false words as create |
| SharePhp.NormalizeAgrees | src/Share.php:91-169 | create's and update's normalisations agree on every value except null and "", where create takes the default and update stores 0 |
| SharePhp.NormalizeStable | src/Share.php:91-106 | a normalised value normalises to itself under either closure and keeps its truthiness |
| SharePhp.NewRowFlags | src/Share.php:71-127 | each of the six flag columns of a new row is 0 or 1; a flag the request leaves out is on exactly for browseable, preserve_case, short_preserve_case and is_active; the path defaults to /srv/samba/<name> |
| SharePhp.Stored | src/Share.php:186-193 | a set flag column is bound as 0 or 1, and any other set column as given |
| SharePhp.ShareAssignmentsExact | src/Share.php:184-195 | there is an assignment for a column iff it is listed and set, and it binds that column's stored value |
| SharePhp.AllowedFieldsExact | src/Share.php:178-182 | the allow-list holds every column except share_name and created_by |
| SharePhp.ChangesMatchAssignments | src/Share.php:184-204 | the SET clauses and the column changes describe the same write, which never touches share_name or created_by |
| SharePhp.NoAssignmentNoChange | src/Share.php:197-199 | update makes no assignment exactly when the request changes no column, and then returns true without a query |
| SharePhp.CollectAssignments | src/Share.php:184-195 | the foreach over the allow-list collects exactly the assignments of the set allowed columns, in list order |
| SharePhp.ClassifyPhp | src/Share.php:458-475 | every permission row adds one valid user, and there are never more admins than writers |
| SharePhp.ClassifyAgrees | src/Share.php:463-474 | with only the levels setPermission accepts, the PHP lists equal the Go handler's, and every user is on either the read or the write list |
| SharePhp.UnknownLevelOnlyValid | src/Share.php:463-474 | a row with an unknown level makes its user valid and puts it on no list, where the Go handler grants read |
| SharePhp.CollectPermissions | src/Share.php:455-475 | the foreach builds exactly the PHP-classified lists |
| SharePhp.ToggleTailWords | src/Share.php:699-702 | after the sudo prefix the shell sees smbpasswd, the -e/-d flag, the user and the redirection |
| SharePhp.ToggleCommandAgrees | src/Share.php:699-702 | for a user name without white space the shell runs the Go handler's argument vector (sudo dropped as root) followed by `2>&1` |
| SharePhp.GlobalSection | src/Share.php:498-517 | the kept global part is the text before the first '[' of the old file, or the default [global] block when that text is blank or missing |
| SharePhp.ActiveRows | src/Share.php:526-529 | the active rows are no more than the rows, and all of them are active |
| SharePhp.InactiveSkipped | src/Share.php:526-529 | the file written for all rows is the file written for the active rows alone |
| SharePhp.RenderSambaConfig | src/Share.php:519-570 | the loop's text is the kept global part followed by each active share's section, in row order |
| SharePhp.SectionFixedSettings | src/Share.php:531-536 | a section gives the comment (the display name when the comment is empty), the path, and read only and guest ok as yes/no of the flags |
| SharePhp.SectionMaskSettings | src/Share.php:557-559 | both masks are always written, with the columns' text |
| SharePhp.SectionOptionalSetting | src/Share.php:543-568 | valid users, write list, read list, admin users, force user and force group appear iff their column is not empty(), and then with its text |
| SharePhp.ToggleShowsOrHides | src/Share.php:244-258 | toggling an active share removes its section from the file; toggling an inactive one appends it |
| SharePhp.ShareStore.constructor | src/Share.php:12-23 | an empty store of shares, share users and permissions |
| SharePhp.ShareStore.Create | src/Share.php:57-142 | a name the pattern refuses (as PCRE runs it with `asWritten`, the intended test otherwise; see Findings), a taken name and a directory that cannot be made are each an error with its own message and change nothing; otherwise the normalised row is inserted under a fresh id, and the new id is returned unless updating Samba threw, whose message is then the error while the row stays stored |
| SharePhp.ShareStore.Update | src/Share.php:147-212 | a missing share is "Share not found"; otherwise the set allow-listed columns are written in their stored form and nothing else changes; a request setting none succeeds without touching Samba, any other reports the Samba failure after the write |
| SharePhp.ShareStore.ToggleActive | src/Share.php:244-258 | a missing share is "Share not found"; otherwise the negated is_active is stored, and returned unless updating Samba threw, whose message is then the error while the flag stays stored |
| SharePhp.ShareStore.ToggleUserActive | src/Share.php:357-371 | a missing user is "User not found"; otherwise the negated flag is stored, smbpasswd is run to match, and a failing smbpasswd is an error after the row was written |
| SharePhp.ShareStore.UpdateSharePermissions | src/Share.php:455-492 | the share's permission rows are read back from the store in the query's order, its four list columns become the comma-joined PHP-classified lists of those rows, nothing else changes, and a Samba failure is the error |
| SharePhp.ShareStore.SetPermission | src/Share.php:403-435 | a level other than read, write or admin is "Invalid permission level" and changes nothing; otherwise the (share, user) level is inserted or overwritten, at most one row per pair, and the share's lists are rebuilt from the permission rows as they are after that write; a Samba failure is the error |
| SharePhp.AfterSamba | src/Share.php:498-624 | a write succeeds with its own value exactly when updateSambaConfig and reloadSamba both succeed; otherwise the error is the directory, move or reload message of the step that failed |
| SharePhp.ReadBack | src/Share.php:377-385 | the rows read back for a share are at most one per user id visited |
| SharePhp.ReadBackOnlyRows | src/Share.php:377-385 | every row read back is a permission row of that share, carrying its user's name and level |
| SharePhp.ReadBackHasRow | src/Share.php:377-385 | every permission row of the share whose user exists is read back |
| SharePhp.ClassifyPhpMembers | src/Share.php:463-474 | a row's user is a valid user, an admin is on the admin and write lists, a writer on the write list, a reader on the read list |
| SharePhp.PermissionListed | src/Share.php:455-475 | after the lists are rebuilt, every user holding a permission on the share is a valid user and on the list of its level |
| SharePhp.SetPermissionListsUser | src/Share.php:403-435 | after setPermission with a valid level, the user is a valid user of the share and on the list of the level just granted |
| Shares.ClassifyValid | go-backend/shares.go:759-761 | every permission row's user is a valid user, in row order, one entry per row |
| Shares.ClassifyMembers | go-backend/shares.go:759-769 | a user is an admin iff it has an admin row; a writer iff it has an admin or a write row; a reader iff it has a row of any other level |
| Shares.ClassifyCounts | go-backend/shares.go:759-769 | each row lands in exactly one of the read and write lists, and the admins are no more than the writers |
| Shares.CollectPermissions | go-backend/shares.go:753-769 | the row loop builds exactly the four classified lists |
| Shares.StoredListReadsBack | go-backend/shares.go:770-773 | a non-empty list of names without commas, stored comma-joined, splits back into the same list |
| Shares.RenderSambaConfig | go-backend/shares.go:706-730 | the loop's text is the fixed [global] block followed by one section per share, in order |
| Shares.LinesSnoc | go-backend/shares.go:715-730 | one more share appends its section's text and changes nothing before it |
| Shares.SambaConfigAsWritten | go-backend/shares.go:695-703 | as written: the text starts with the global block, is only that block with no active share, and with any active share its first section is headed `[]`, because the rows are never scanned |
| Shares.EmptySectionsWritten | go-backend/shares.go:695-730 | as written, one active share yields a section headed `[]` with an empty path and every flag "no" instead of the share's own section, so the text differs from the intended one |
| Shares.ConfigReadsBack | go-backend/shares.go:706-730 | the text starts with the global block, and when no share field holds a line break the rest reads back, line by line, as each share's section in order |
| Shares.ShareLinesSingle | go-backend/shares.go:715-730 | the rendered lines of shares whose fields hold no line break hold none either |
| Shares.SectionFixedSettings | go-backend/shares.go:716-721 | a section always gives the share's comment and path, and browseable, read only and guest ok as yes/no of its flags |
| Shares.SectionListSettings | go-backend/shares.go:722-727 | valid users and write list are set iff non-empty, to the share's lists; a read list or admin users are never set |
| Shares.LookupPastFixed | go-backend/shares.go:716-727 | past the five fixed settings, only the user-list lines can set a key |
| Shares.LookupAt | go-backend/shares.go:716-727 | the first setting of a key is what a reader of the section finds |
| Shares.UpdateKeepsOtherColumns | go-backend/shares.go:172-191 | an update writes every allow-listed column of the request and no other column; share_name is never changed |
| Shares.ScanBool | go-backend/shares.go:241-246 | a stored bool scans as itself and NULL does not scan |
| Shares.Toggled | go-backend/shares.go:241-259 | a toggle succeeds iff is_active scans as a bool; it stores the negation and leaves every other column as it was |
| Shares.ToggleTwice | go-backend/shares.go:241-259 | toggling twice gives the flag back, and the very row when the flag was stored as a bool |
| Shares.SambaToggleCommand | go-backend/shares.go:797-803 | `sudo smbpasswd <flag> <user>` with `-e` iff the account is enabled and `-d` iff it is disabled |
| Shares.ShareDatabase.constructor | go-backend/shares.go:22-36 | an empty store of shares and share users |
| Shares.ShareDatabase.CreateShare | go-backend/shares.go:65-112 | an undecodable body is 400 "Invalid request"; a failed insert is 400 with the database's message; otherwise the row is stored under a fresh id, its path defaulting to /srv/samba/<share_name>, and nothing else changes |
| Shares.JoinPath | go-backend/shares.go:72-74 | the directory is a prefix; an empty name gives the directory itself, any other name follows it after one slash |
| Shares.ShareDatabase.UpdateShare | go-backend/shares.go:152-205 | an undecodable body is 400; a request with no allow-listed key succeeds without a write; a failed write is 400; otherwise the allow-listed keys overwrite those columns of that row and nothing else |
| Shares.ShareDatabase.ToggleShare | go-backend/shares.go:230-261 | a missing row or unreadable flag is 404 "Share not found"; a failed write 400; otherwise the negated flag is stored and returned, and nothing else changes |
| Shares.ShareDatabase.UpdateSharePermissions | go-backend/shares.go:740-777 | the share's valid users, read, write and admin lists become the comma-joined classified lists of its permission rows; no other column or share changes |
| Shares.ShareDatabase.ToggleShareUser | go-backend/shares.go:571-602 | a missing user or unreadable flag is 404 "User not found"; a failed write 400; otherwise the flag is negated, returned, and smbpasswd is run with the matching -e/-d for that user |
| ApiClient.TargetPort | frontend/src/api/client.ts:20-22 | the port is never empty: the trimmed VITE_API_PORT when that is non-empty, otherwise "8080" |
| ApiClient.ExplicitBaseUrl | frontend/src/api/client.ts:4-8 | a non-blank VITE_API_BASE_URL is the base URL, trimmed, whatever the build mode and window |
| ApiClient.RelativeApi | frontend/src/api/client.ts:10-16 | without an explicit base URL, a development build or a missing window gives "/api"; otherwise the URL starts with the page's protocol, "//" and host name |
| ApiClient.AbsoluteApi | frontend/src/api/client.ts:18-28 | in a production build in the browser the URL is protocol//host/api for ports 80 and 443, and protocol//host:port/api for any other port (8080 by default) |
| ApiClient.Browser.constructor | frontend/src/api/client.ts:55 | the browser starts at the given location, the `window.location.href` the interceptor later reassigns |
| ApiClient.Browser.OnResponseError | frontend/src/api/client.ts:50-59 | the error is rejected unchanged; a 401 moves the browser to /login and any other error leaves the location alone |
| TerminalExec.ReplyOutput | public/api/terminal-exec.php:159-164 | exit code 124 gives the timeout message; another non-zero code with empty output gives "Command exited with code: N"; otherwise the output is returned as it is |
| TerminalExec.FailureExplained | public/api/terminal-exec.php:159-164 | a failing command never gets an empty reply text |
| TerminalExec.BlockedCall | public/api/terminal-exec.php:99-105 | a blocked attempt is logged at level warning, with the command cut to 500 characters |
| TerminalExec.TerminalEndpoint.constructor | public/api/terminal-exec.php:26-32 | no terminal session, no activity, no log calls and no commands yet |
| TerminalExec.TerminalEndpoint.Screen | public/api/terminal-exec.php:96-124 | the pattern loop reports a block iff some blocked pattern matches the command |
| TerminalExec.TerminalEndpoint.Handle | public/api/terminal-exec.php:8-174 | anonymous: 401, non-admin: 403 and unknown action: "Invalid action", all without any change; `init` stores the new session id and the time and logs one activity row; a command reaches the shell only for an admin `exec` with a non-empty command, the stored session id, an unexpired session and no blocked pattern, and then exactly one `timeout 30 bash -c` line is run |
| TerminalExec.TerminalEndpoint.Exec | public/api/terminal-exec.php:53-172 | empty command, wrong session and expired session (more than 1800 s) are refused in that order with nothing changed; otherwise the session time is refreshed; a blocked trimmed command is logged as a warning under the user's id and a terminal_blocked row and never run; an allowed one is logged, run once through `timeout 30 bash -c 'cd /opt/serveros && …' 2>&1`, recorded with the logger under the user's id, and answered with the normalised output and the exit code |
| ErrorHandling.ErrorTypeNames | src/ErrorHandler.php:167-186 | each of the fifteen error constants is named after itself, and exactly the other numbers are "UNKNOWN" |
| ErrorHandling.ErrorTypeRoundTrip | src/ErrorHandler.php:167-186 | reading the name back gives the constant again: no known constant loses its identity |
| ErrorHandling.ErrorTypeInjective | src/ErrorHandler.php:167-186 | two known constants with the same name are the same constant |
| ErrorHandling.LevelOf | src/ErrorHandler.php:44-59 | "warning" iff E_WARNING or E_USER_WARNING; "info" iff a notice, E_STRICT or a deprecation; "error" for everything else |
| ErrorHandling.ErrorMessage | src/ErrorHandler.php:61-67 | the logged message starts with "[<error name>] " |
| ErrorHandling.ErrorContext | src/ErrorHandler.php:69-79 | the context carries the error code, and has_context=true exactly when the caller passed a context |
| ErrorHandling.ShutdownCall | src/ErrorHandler.php:136-152 | a fatal error is logged at level error with a message starting "Fatal error: " |
| ErrorHandling.ErrorHandler.constructor | src/ErrorHandler.php:8 | no logger yet, nothing registered, nothing logged |
| ErrorHandling.ErrorHandler.Init | src/ErrorHandler.php:10-33 | the first call installs the handlers once and sets reporting to E_ALL; any later call changes nothing |
| ErrorHandling.ErrorHandler.HandleError | src/ErrorHandler.php:38-96 | always returns false; with error_reporting() at 0 nothing is logged; otherwise exactly one entry: a logger call at LevelOf with the message and context, or, with no logger or a throwing one, the line "[level] message" in the error log |
| ErrorHandling.ErrorHandler.HandleException | src/ErrorHandler.php:101-128 | an uncaught `Error` (not an `Exception`) with a logger installed logs nothing and sends nothing, because `Logger::exception` accepts only an `Exception` and the TypeError it raises escapes `catch (Exception)`; otherwise exactly one log entry (the logger's exception call, the "Uncaught exception" line without a logger, or "Exception: msg" when an installed logger throws; without a logger nothing can throw); a 500 JSON body is sent iff X-Requested-With is non-empty or the URI contains "/api/", outside that `Error` case |
| ErrorHandling.ErrorHandler.HandleShutdown | src/ErrorHandler.php:133-162 | nothing happens unless the last error is one of the five fatal kinds; then exactly one error-level entry with the "Fatal error:" message goes to the logger, or to the error log as fallback |
| Storage.DecodeMountPath | go-backend/storage.go:296-303 | decoding never lengthens a path, and a path without a backslash is left as it is |
| Storage.EscapedChar | go-backend/storage.go:300-301 | three octal digits name a code below 512 |
| Storage.EncodeChar | go-backend/storage.go:296-303 | the kernel writes space, tab, newline and backslash as a backslash and three octal digits that decode back to that character, and every other character as itself |
| Storage.DecodeEncode | go-backend/storage.go:296-303 | decoding a path the way the kernel writes it to /proc/mounts gives back the real path, for every path |
| Storage.ShouldIncludeMount | go-backend/storage.go:264-294 | a /dev/ device is listed iff it is not a loop device; a tmpfs elsewhere iff it is mounted on /tmp or /dev/shm; anything else iff its type is not one of the 22 pseudo filesystems |
| Storage.LoopDevicesExcluded | go-backend/storage.go:266-271 | a /dev/loop device is never listed, whatever its mount point and type |
| Storage.PartitionFigures | go-backend/storage.go:235-242 | total is blocks times block size; used plus free is the total; used and available lie within the total; the usage lies in 0..100 and is 0 for an empty filesystem |
| Storage.PartitionOf | go-backend/storage.go:235-242 | the partition keeps the device, mount point and type; its total is blocks times block size, used plus free makes the total, and an empty filesystem shows usage 0 |
| Storage.ScanLinesOk | go-backend/storage.go:207-258 | every listed partition passed the mount filter, its raw field was marked seen, its mount point is that field decoded, and no raw field is listed twice |
| Storage.ScanLinesEncoded | go-backend/storage.go:207-258 | when the kernel wrote every line, every raw field behind a listed partition is written the kernel's way |
| Storage.GetMountedPartitions | go-backend/storage.go:195-261 | the loop over the /proc/mounts lines with its seen set yields the partition list of that text, and nothing when it cannot be read; with `decodeFirst` false statfs is asked about the raw field as the code does (see Findings), with it true about the decoded path |
| Storage.PartitionsFiltered | go-backend/storage.go:214-222 | no listed partition is a loop device, a pseudo filesystem outside /dev/, or a tmpfs other than /tmp and /dev/shm |
| Storage.MountPointsDistinct | go-backend/storage.go:204-227 | when the kernel wrote every mount field, no two listed partitions show the same mount point |
| Storage.MountLineFields | go-backend/storage.go:209-210 | a /proc/mounts line of four words splits back into those four fields |
| Storage.MountLineAlone | go-backend/storage.go:207-210 | such a line is a single line of the file and has exactly those four fields |
| Storage.DevMountListed | go-backend/storage.go:214-245 | corrected: every /dev/ mount other than a loop device whose decoded path statfs answers is listed, with the decoded mount point |
| Storage.MountedPartitionsAsWritten | go-backend/storage.go:195-258 | as written: nothing when /proc/mounts cannot be read, and never a loop device |
| Storage.EscapedMountDropped | go-backend/storage.go:229-245 | as written, a /dev/ mount whose path holds an escape is never listed because statfs is asked about the escaped text; asking about the decoded path lists it with the decoded mount point |
| Storage.DetectDiskType | go-backend/storage.go:174-193 | nvme iff the name starts with nvme; ssd iff not nvme and the rotational file reads "0" after trimming; hdd otherwise, including when the file cannot be read |
| Storage.GetDisksFromSysBlock | go-backend/storage.go:124-172 | nothing when /sys/block cannot be listed; otherwise the disks of its entries, in order |
| Storage.GetPhysicalDisks | go-backend/storage.go:58-122 | the disks of the trimmed lsblk lines when lsblk ran, the /sys/block fallback otherwise |
| Storage.LsblkLineListed | go-backend/storage.go:71-85 | an lsblk line yields a disk iff it has at least three fields, its name is not a loop, ram, dm- or sr device and its type is `disk` |
| Storage.ListLsblkDisks | go-backend/storage.go:69-121 | the loop over the lsblk lines keeps exactly the whole disks those lines describe, in line order |
| Storage.LsblkDisksFiltered | go-backend/storage.go:70-121 | no more disks than lines; every listed disk has an accepted name, and its kind is nvme exactly for nvme names |
| Storage.SysBlockDiskShape | go-backend/storage.go:133-170 | a disk from one /sys/block entry has an accepted name, no serial and a size that is a whole number of 512-byte sectors |
| Storage.SysBlockDisksFiltered | go-backend/storage.go:132-171 | the fallback lists no more disks than entries, each with that shape |
| SystemInfo.BreakdownOf | go-backend/system.go:173-175 | for a non-negative uptime, hours < 24 and minutes < 60, and days, hours, minutes and the leftover seconds add back up to the uptime; a negative uptime gives no positive part |
| SystemInfo.UptimeOf | go-backend/system.go:160-197 | /proc/uptime without fields gives 0 seconds and "0m" |
| SystemInfo.UptimeReadBack | go-backend/system.go:170-191 | the text is faithful: reading its parts back gives the uptime rounded down to whole minutes, so only the seconds are dropped |
| SystemInfo.UptimeText | go-backend/system.go:170-191 | "0m" when no unit is non-zero; otherwise the text starts with the largest non-zero unit and splits on spaces into exactly the non-zero d, h, m parts, in that order |
| SystemInfo.PartsSum | go-backend/system.go:177-186 | the non-zero d, h, m parts add up to the whole minutes, and none contains a space |
| SystemInfo.PartReadBack | go-backend/system.go:178-185 | "<n>d", "<n>h" and "<n>m" read back as n days, hours or minutes |
| SystemInfo.NegativeUptime | go-backend/system.go:173-191 | a negative reading shows "0m" |
| SystemInfo.ReadMeminfo | go-backend/system.go:93-104 | the line loop builds the table: each line with two fields maps its key, without the trailing ':', to the value times 1024 |
| SystemInfo.MeminfoLastWins | go-backend/system.go:97-104 | a key's value comes from the last line that gives it |
| SystemInfo.MeminfoAbsent | go-backend/system.go:97-106 | a key no line gives is absent, and so reads as 0 |
| SystemInfo.MeminfoLineEntry | go-backend/system.go:98-102 | a kernel line `Key: N kB` gives the key and N*1024 bytes |
| SystemInfo.MeminfoReadsTable | go-backend/system.go:93-106 | for a table of distinct keys written as meminfo lines, each key reads back as its value times 1024 |
| SystemInfo.MemoryAsWritten | go-backend/system.go:106-112 | as written: the usage is not a number exactly when MemTotal is 0 or missing |
| SystemInfo.MemoryOf | go-backend/system.go:106-124 | corrected: used + free + buffers + cached is the total; the usage is always a number, 0 when the total is not positive, otherwise as written |
| SystemInfo.MissingMemTotal | go-backend/system.go:106-112 | without a MemTotal line the code as written yields a usage that is not a number; the corrected version reports 0 |
| SystemInfo.SwapOf | go-backend/system.go:142-157 | used + free is the total; the usage is 0 unless the total is positive, and between 0 and 100 when 0 <= free <= total |
| SystemInfo.FormatBytes | go-backend/system.go:278-289 | the loop divides by 1024 while the value is at least 1024 and the unit is below TB: value * 1024^unit is the byte count, below 1024 unless the unit is TB, and at least 1 unless the unit is B |
| SystemInfo.SystemControl | go-backend/system.go:319-350 | 400 "Invalid request" for a body that is not JSON; a command runs iff the reply is 200, always under sudo, with "System <action> initiated"; otherwise 400 "Invalid action" |
| SystemInfo.ActionsAccepted | go-backend/system.go:330-341 | exactly reboot, shutdown, suspend, sleep and hibernate are accepted, and sleep runs the same command as suspend |
| SystemStats.OrNa | public/api/system-stats.php:218-219 | `$s ?: 'N/A'` keeps the text iff it is neither "" nor "0", and gives "N/A" otherwise |
| SystemStats.UptimeAgrees | public/api/system-stats.php:130-146 | the PHP page and the Go backend show the same uptime text for every number of seconds, negative ones included |
| SystemStats.JoinNotFalsy | public/api/system-stats.php:144 | joined uptime parts are never "" or "0", so `?: '0m'` only applies when there is no part |
| SystemStats.MemoryOf | public/api/system-stats.php:76-103 | used + free + buffers + cached is the total; the usage is 0 unless the total is positive, and used/total*100 otherwise |
| SystemStats.SwapOf | public/api/system-stats.php:106-127 | used + free is the total; the usage is 0 unless the total is positive |
| SystemStats.MatchKernelLine | public/api/system-stats.php:79-87 | on a kernel line `Key: N kB` the PHP pattern reads the same key and number as the Go parser, which scales to bytes itself |
| SystemStats.MatchLineParts | public/api/system-stats.php:79 | `^(\w+):\s+(\d+)` on a word, a colon, a blank and digits yields that word and number |
| SystemStats.SpeedText | public/api/system-stats.php:196-201 | "N/A" iff the speed file reads "", "-1" or 4294967295; otherwise the value followed by " Mbps" |
| SystemStats.VethShownAsEthernet | public/api/system-stats.php:205-209 | every name containing "veth" contains "eth", so a veth pair is always shown as Ethernet and the veth test never decides |
| SystemStats.InterfaceTypeAsWritten | public/api/system-stats.php:203-211 | as written: ethernet exactly for names containing "eth" or "en", so every veth name is ethernet |
| SystemStats.InterfaceType | public/api/system-stats.php:203-211 | corrected: a veth name is Virtual; every other name is typed as written |
| SystemStats.TypeOf | public/api/system-stats.php:203-211 | a name without "veth" gets the type the tests as written give; a veth name is Virtual exactly with the corrected order |
| SystemStats.InterfaceOf | public/api/system-stats.php:176-179 | an interface entry exists iff the name is neither "", "0" nor "lo"; it carries the name, and its type is the code's (a veth name is Ethernet) unless `vethFirst` selects the corrected order (see Findings) |
| SystemStats.GetNetworkInfo | public/api/system-stats.php:170-229 | the loop over the trimmed `ls /sys/class/net/` lines yields one entry per listed name that is not empty or the loopback, in order, typed as `vethFirst` selects |
| SystemStats.InterfacesOfSnoc | public/api/system-stats.php:176-228 | one more listed name adds its own entry, or nothing, at the end |
| SystemStats.ListedShape | public/api/system-stats.php:176-228 | a name yields at most one interface, carrying that name, and none for "", "0" or the loopback |
| SystemStats.InterfacesFiltered | public/api/system-stats.php:170-229 | no listed interface is unnamed or the loopback, each carries a listed name, and there are no more entries than names |
| SystemStats.StatsOf | public/api/system-stats.php:7-12 | without a login the reply is 401 and nothing else; with one, the figures of the inputs, interfaces typed as `vethFirst` selects |
| Temperature.ReadTrips | go-backend/temperature.go:111-140 | the trip loop applies each trip point in turn: an unreadable or unparsable file changes nothing, a positive critical trip sets the critical threshold, a positive hot or high trip sets the high one |
| Temperature.TripsPositive | go-backend/temperature.go:111-140 | trip points only ever set positive thresholds and never touch the name or the temperature |
| Temperature.ReadThermalZones | go-backend/temperature.go:66-145 | nothing when the directory cannot be listed; otherwise one reading per thermal_zone* entry whose type and temperature read and parse with 0 < t <= 150 degrees |
| Temperature.ZoneReadingsValid | go-backend/temperature.go:76-145 | every zone reading lies in (0, 150] degrees and its thresholds are positive |
| Temperature.SensorName | go-backend/temperature.go:192-205 | a non-blank label names the reading; otherwise "<device> temp<N>" for a known device, and "unknown" for an unknown one |
| Temperature.Threshold | go-backend/temperature.go:213-229 | a crit or max threshold is kept only when it parses and is positive |
| Temperature.ReadDeviceInputs | go-backend/temperature.go:170-233 | the input loop keeps exactly the inputs whose value parses with 0 < t <= 150 degrees and whose file number is decimal, named and thresholded as above |
| Temperature.ReadHwmon | go-backend/temperature.go:147-237 | nothing when the directory cannot be listed; otherwise the readings of every device, in order, named "unknown" when its name file cannot be read |
| Temperature.InputReadingsValid | go-backend/temperature.go:178-233 | every hwmon reading lies in (0, 150] degrees and its thresholds are positive |
| Temperature.InGroup | go-backend/temperature.go:42-53 | a group's list holds only readings whose lower-cased name puts them in that group |
| Temperature.InGroupSnoc | go-backend/temperature.go:42-53 | a reading joins its own group's list, at the end, and no other |
| Temperature.GroupsPartition | go-backend/temperature.go:42-53 | every hwmon reading lands in exactly one of CPU, GPU and Sensors: the three lists together hold exactly the readings |
| Temperature.Collect | go-backend/temperature.go:30-64 | CPU is the thermal zones followed by the hwmon sensors named cpu/core/package/tctl; GPU the ones named gpu/nvidia/amdgpu/radeon; Sensors the rest; Disks the disk readings |
| Temperature.AnnotatedLineIgnored | go-backend/temperature.go:294-303 | on a line with a "(Min/Max 20/45)" annotation the code as written finds no temperature, while the RAW_VALUE column gives 35 degrees |
| Temperature.LineValueAsWritten | go-backend/temperature.go:290-303 | as written: a reading comes only from a temperature line of at least ten fields, and on such a line it is exactly the value of the last field when that lies in the plausible disk range, and none otherwise |
| Temperature.RawValueRead | go-backend/temperature.go:294-303 | corrected: on a temperature line the reading is the tenth field, RAW_VALUE, in millidegrees, whatever annotation follows it |
| Temperature.PlainLineAgrees | go-backend/temperature.go:294-303 | on a temperature line of exactly ten fields the last field is the RAW_VALUE column, so the code as written and the corrected reading agree there |
| Temperature.SmartTemperature | go-backend/temperature.go:285-310 | the line loop stops at the first temperature line giving a value in (0, 150) degrees, read from the last field as the code does with `asWritten` (see Findings), from the RAW_VALUE column otherwise |
| Temperature.ReadDiskTemperatures | go-backend/temperature.go:240-316 | the sd* devices followed by the nvme* devices, each read from NVMe temp1_input or from smartctl, the smartctl line read as `asWritten` selects |
| Temperature.DiskReadingsValid | go-backend/temperature.go:240-316 | at most one reading per device; each lies strictly between 0 and 150 degrees and names its device |
| Temperature.DiskReading | go-backend/temperature.go:253-310 | a reading names its device and lies strictly between 0 and 150 degrees; a non-NVMe device has one exactly when smartctl output exists and one of its lines gives a value |
| Temperature.FirstValueValid | go-backend/temperature.go:285-310 | a value found in smartctl output always lies strictly between 0 and 150 degrees, however the lines are read |
| Users.Kept | src/User.php:69-74 | update() keeps at most the given pairs, each from the data and each with an allow-listed key |
| Users.KeptExactly | src/User.php:69-74 | a pair is kept iff its key is one of username, email, full_name, role, is_active |
| Users.UpdateQuery | src/User.php:80-81 | the statement starts "UPDATE users SET " and binds one value per kept pair, then the id last |
| Users.AssignKeepsOthers | src/User.php:65-89 | an update never touches a column outside the allow-list, the password in particular |
| Users.AssignLastWins | src/User.php:69-84 | each kept column ends with the value of its last pair in the data |
| Users.User.constructor | src/User.php:8-13 | the table as given, every stored id below the next id, no statement yet |
| Users.User.Create | src/User.php:15-27 | one INSERT with the bcrypt hash, never the plain password; on success the new row is stored under the next id, which is returned; when the insert throws, false and no change |
| Users.User.Update | src/User.php:65-89 | with no allow-listed key: false and no statement at all; otherwise one UPDATE of exactly the kept pairs; true iff it does not throw, and then only that row's kept columns change |
| Users.User.UpdatePassword | src/User.php:94-104 | one UPDATE storing the hash of the new password; true iff it does not throw, and then only that row's password changes |
| Users.User.Delete | src/User.php:109-122 | id 1 is refused with false and no statement; otherwise one DELETE, true iff it does not throw, and then exactly that row is gone; the administrator row always survives |
| Users.ScannedRowsExactly | go-backend/users.go:31-45 | every row that scanned is listed, and only those |
| Users.ListUsers | go-backend/users.go:29-51 | the rows that scanned, in order, skipping failed scans; with none the list is nil (JSON null) |
| Users.RoleOrDefault | go-backend/users.go:67-69 | an empty role becomes "user"; any other role is kept |
| Users.UserHandlers.constructor | go-backend/users.go:53 | the users table as given |
| Users.UserHandlers.Create | go-backend/users.go:53-98 | 400 for a bad body, 500 when hashing fails or the database is unavailable, 400 when the insert fails, all without change; otherwise the row with the hashed password and the defaulted role is stored under the next id |
| Users.UserHandlers.Get | go-backend/users.go:100-127 | 500 without a database; 404 for an unknown id (a non-numeric id reads as 0); otherwise the stored row |
| Users.UserHandlers.Update | go-backend/users.go:129-168 | id 1 gets 403 before the body is read; then 400/500/400 for body, database and statement failures; success iff all succeed, and then all five columns of that row come from the body and nothing else changes |
| Users.UserHandlers.Delete | go-backend/users.go:170-193 | id 1 gets 403; success iff the database and the statement succeed, and then exactly that row is gone; the administrator row always survives |
| Users.UserHandlers.UpdatePassword | go-backend/users.go:195-238 | after the body decodes, only an administrator or the user themself may go on (403 otherwise); success iff hashing, database and statement succeed, and then only that row's password changes, to the hash |
| Users.UserHandlers.UpdateProfile | go-backend/users.go:253-287 | without a session user 401 and no change; success iff the body, database and statement succeed, and then only that user's email and full name change |
| Users.PasswordChangeAuthorised | go-backend/users.go:208-216 | a user who is not an administrator cannot change any password but their own |
| VmConsole.WebSocketUrl | go-backend/vmconsole.go:65 | the console WebSocket URL lies under /api/vms/ and ends with /console/ws?token=<token> |
| VmConsole.ConsoleInfoOf | go-backend/vmconsole.go:27-70 | a missing VM is not found; connection details and a token are given iff the VM is running, with its VNC and SPICE ports |
| VmConsole.DialPort | go-backend/vmconsole.go:95-98 | the proxy dials the stored VNC port, or 5900 when it is 0, so never port 0 |
| VmConsole.ConsoleTarget | go-backend/vmconsole.go:72-96 | a missing VM is "VM not found", one not running "VM is not running"; a running one is dialled at localhost on the dial port |
| VmConsole.OpenConsole | go-backend/vmconsole.go:72-103 | a failed database connection is 500 "Database error" before anything else; then a missing VM is 404 and one not running 400, as ConsoleTarget says; a running one is connected to exactly ConsoleTarget's address when the dial succeeds, and a failed dial is 500 "Failed to connect to VM console" |
| VmConsole.WsToVncSpec | go-backend/vmconsole.go:161-187 | wsToVNC writes at most one VNC payload per WebSocket message |
| VmConsole.WsForwardsBinaryOnly | go-backend/vmconsole.go:161-187 | without failures, exactly the binary messages reach VNC, verbatim and in order, every other type is ignored, and the proxy stays open |
| VmConsole.VncToWsSpec | go-backend/vmconsole.go:189-221 | vncToWS sends at most one message per read, and never an empty one |
| VmConsole.VncOneMessagePerRead | go-backend/vmconsole.go:199-219 | end of file and timeouts are retried, so without failures each non-empty read becomes exactly one binary message, in order, and the proxy stays open |
| VmConsole.VncProxy.constructor | go-backend/vmconsole.go:133-140 | a new proxy is open on both sides, not done, with nothing forwarded |
| VmConsole.VncProxy.Close | go-backend/vmconsole.go:223-229 | after close the proxy is done with both connections closed and exactly one teardown, and a second call changes nothing |
| VmConsole.VncProxy.WsToVnc | go-backend/vmconsole.go:161-187 | the loop appends to VNC exactly what the specification forwards and closes the proxy exactly when it ends on a failure; a proxy already done forwards nothing |
| VmConsole.VncProxy.VncToWs | go-backend/vmconsole.go:189-221 | the loop sends to the WebSocket exactly what the specification forwards and closes exactly on a real failure; a proxy already done sends nothing |
| VmConsole.CloseTwice | go-backend/vmconsole.go:223-229 | closing twice performs the teardown once |
| VmConsole.KeyQcode | go-backend/vmconsole.go:270-283 | exactly ctrl-alt-del, ctrl-alt-f1, ctrl-alt-f2 and ctrl-alt-f7 are accepted, each pressing the qcode its name ends with (delete for del) |
| VmConsole.SendKey | go-backend/vmconsole.go:239-295 | an undecodable body is 400, a missing VM 404, a stopped VM 400, all before any QMP call; QMP runs iff the VM is running and the key is known, with the send-key command of ctrl, alt and the qcode |
| VmControl.Extension | public/api/vm-control.php:46 | pathinfo's extension holds no dot and is the tail of the name |
| VmControl.StemDotExtension | public/api/vm-control.php:84-85 | a name with a dot is its stem, the dot and its extension |
| VmControl.Sanitize | public/api/vm-control.php:58 | the sanitised name is exactly as long as the original |
| VmControl.SafeNameChars | public/api/vm-control.php:58 | every character of the stored name is in [a-zA-Z0-9._-]: safe characters are kept in place and every other one becomes '_' |
| VmControl.SanitizeIdempotent | public/api/vm-control.php:58 | sanitising a sanitised name changes nothing |
| VmControl.SanitizeLastDot | public/api/vm-control.php:58 | sanitising keeps the dots where they are, so the last dot stays the last dot |
| VmControl.SanitizeExtension | public/api/vm-control.php:46-58 | the extension of the sanitised name is the sanitised extension |
| VmControl.UniqueNameExtension | public/api/vm-control.php:82-88 | a renamed upload `<stem>_<time>.<ext>` keeps its extension |
| VmControl.UniqueName | public/api/vm-control.php:84-86 | the renamed file starts with the stem, an underscore and the time, and ends with a dot and the original extension |
| VmControl.IsoExtensionSafe | public/api/vm-control.php:46-58 | an "iso" extension in any case passes the sanitiser unchanged |
| VmControl.IsoNameExtension | public/api/vm-control.php:46-89 | the stored name, renamed or not, keeps the uploaded name's extension, which reads "iso" in lower case |
| VmControl.IsoName | public/api/vm-control.php:57-87 | a sanitised name not yet on disk is kept; one already present is renamed to its stem, an underscore and the time |
| VmControl.ActivityFor | public/api/vm-control.php:142-263 | a branch that returns writes an activity row iff the action is start, stop, restart, create_backup, restore_backup or delete_backup |
| VmControl.ClassAsWritten | src/VM.php:6-550 | class VM defines no backup method, so each backup branch's first call throws the Error "Call to undefined method VM::<method>()"; every other call behaves as the class's own methods |
| VmControl.BackupActionsFail | public/api/vm-control.php:208-280 | as written, every backup action reaches the `catch (Error $e)` branch and is answered 500 "Server error: Call to undefined method VM::<method>()" |
| VmControl.Thrown | public/api/vm-control.php:271-280 | an Exception or Error thrown by the VM class is answered with 500 |
| VmControl.MoveFailure | public/api/vm-control.php:91-104 | a failed move reports "Failed to save uploaded file" followed by the reason |
| VmControl.UploadFields | public/api/vm-control.php:133-139 | the reply names the stored file, its path in the ISO directory and its size |
| VmControl.Selected | public/api/vm-control.php:29-34 | a string picks its own case label; `true` loosely equals the first label, upload_iso; nothing else reaches upload_iso |
| VmControl.VmControl.constructor | public/api/vm-control.php:62 | the ISO directory and its files as given, no activity |
| VmControl.VmControl.UploadIso | public/api/vm-control.php:34-140 | a missing or failed upload, a non-.iso name and a file over 20 GiB are refused in that order with nothing stored; an acceptable upload is stored under its sanitised (and, when taken, renamed) name with one activity row iff the directory exists or is made, is writable and the move succeeds |
| VmControl.VmControl.Store | public/api/vm-control.php:60-139 | success iff the directory exists or is created, is writable and the move succeeds; each failure has its own message and stores nothing |
| VmControl.VmControl.PrepareDir | public/api/vm-control.php:60-80 | the directory exists afterwards iff it did or mkdir succeeded; a failed mkdir and an unwritable directory are reported, in that order |
| VmControl.VmControl.Place | public/api/vm-control.php:81-139 | a successful move stores the file under its name, logs one iso_upload row and replies with the name, path and size; a failed move changes nothing |
| VmControl.VmControl.Handle | public/api/vm-control.php:18-280 | 401 without a login and nothing changes; only the upload_iso label can touch the ISO files; an action matching no label gives "Invalid action" and changes nothing |
| VmControl.VmControl.Dispatch | public/api/vm-control.php:141-280 | an unknown action fails; a VM call that throws gives 500 with its message and no activity; a returning call gives that action's reply fields and, for a state-changing action, exactly one activity row |
| VmControl.VmControl.DispatchAsWritten | public/api/vm-control.php:141-280 | against the VM class as written, every backup action answers 500 with the undefined-method Error and writes no activity row; the other actions reply and log as Dispatch does |
| VmPhp.Coalesce | src/VM.php:56 | `??` gives the value when it is present and not null, and the default otherwise |
| VmPhp.EscapeShellArg | src/VM.php:399 | the quoted argument starts and ends with a single quote, and is the text in quotes when it holds none |
| VmPhp.AllocatePort | src/VM.php:523-537 | the lowest port in [min, max] that no stored spice_port uses; "No available ports" exactly when every port there is used |
| VmPhp.NetworkConfig | src/VM.php:445-463 | network text appears only for nat, bridge with a bridge name, and user, and then ends with the MAC address |
| VmPhp.DriveTokens | src/VM.php:402-414 | at most the disk, pass-through and ISO drives, each dropped when its file is missing or its column is empty |
| VmPhp.DisplayTokens | src/VM.php:420-433 | spice gives five tokens with the qxl VGA; vnc gives -vnc at the unclamped port minus 5900; any other type gives -display none |
| VmPhp.BuildQemuCommand | src/VM.php:383-440 | the pushed tokens, joined by single blanks |
| VmPhp.QemuTokensShape | src/VM.php:383-440 | the command starts with qemu-system-x86_64 and -enable-kvm and ends with -daemonize and the pid file of the VM |
| VmPhp.SpiceFile | src/VM.php:294-317 | a missing VM gives nothing, a non-SPICE display the error "VM does not use SPICE display", and a SPICE one a file |
| VmPhp.SpiceFileLines | src/VM.php:304-312 | when the password and the name hold no line break, the file reads back line by line as the eight [virt-viewer] settings |
| VmPhp.LinesSplit | src/VM.php:304-312 | lines without breaks, each terminated by a break, split back into those lines and a final empty part |
| VmPhp.AssignmentsExact | src/VM.php:127-132 | there is a SET clause for a field iff it is on the allow-list and set, and it carries the given value |
| VmPhp.CollectAssignments | src/VM.php:121-132 | the foreach over the allow-list yields exactly those clauses, in list order |
| VmPhp.LaunchPid | src/VM.php:196-200 | a pid is accepted exactly when the trimmed output is not empty, not "0" and numeric, and then it is that number |
| VmPhp.PhpVmTable.constructor | src/VM.php:12-28 | an empty table |
| VmPhp.PhpVmTable.Create | src/VM.php:51-102 | a failed disk image is an error that changes nothing, and so is "No available ports", exactly when every port in 5900..6000 is taken; otherwise one row is added under a fresh id holding the name, the generated uuid and password, the description, format, ISO, boot, disk-device and bridge values or their defaults, the disk under the VM directory, the given or generated MAC, status stopped, no pid, the creating user, and the lowest free SPICE port in 5900..6000 |
| VmPhp.PhpVmTable.Update | src/VM.php:107-143 | a missing VM is false; a running VM is "Cannot update VM while it is running"; otherwise true with the SET clauses of the set allow-listed fields |
| VmPhp.PhpVmTable.Stop | src/VM.php:214-240 | a missing VM is an error, and so is one that is not running or has an empty pid, neither changing anything; otherwise SIGKILL when forced or SIGTERM is sent and the row becomes stopped with a NULL pid |
| VmPhp.PhpVmTable.Start | src/VM.php:173-209 | a missing or running VM is refused before any launch; otherwise the built command is launched; a pid that is empty or not numeric is "Failed to start VM" and leaves the row; else the row is running with that pid |
| VmPhp.PhpVmTable.Restart | src/VM.php:245-249 | a VM that is not running with a pid is refused and unchanged; otherwise it is stopped and then started, ending running with the new pid, or stopped when the launch fails |
| VmPhp.PhpVmTable.GetStatus | src/VM.php:254-271 | a missing VM gives nothing; a running row with a pid whose process is gone is stored and reported as stopped; otherwise the stored status is reported and nothing changes |
| VmPhp.PhpVmTable.Delete | src/VM.php:148-168 | a missing VM is false; a running VM with an empty pid makes the forced stop throw and the row stays; otherwise the row is removed |
| Vms.Prologue | go-backend/vms.go:1243-1260 | the command opens with qemu-system-x86_64, -enable-kvm, q35 with KVM, the VM's uuid and name, then -cpu (host when the type is empty), the cores and the memory |
| Vms.MemoryArgs | go-backend/vms.go:1262-1271 | the balloon device adds two words and hugepages three, each only when enabled |
| Vms.FirmwareArgs | go-backend/vms.go:1273-1285 | two pflash drives appear iff the firmware is uefi and the OVMF code file exists |
| Vms.TpmArgs | go-backend/vms.go:1287-1294 | TPM arguments appear iff TPM is enabled |
| Vms.DiskOptions | go-backend/vms.go:1297-1310 | the disk option names the disk path as a virtio drive, and ends with discard=unmap when discard is enabled |
| Vms.DiskArgs | go-backend/vms.go:1297-1312 | a disk drive appears iff the disk path is set |
| Vms.PassthroughArgs | go-backend/vms.go:1314-1317 | a raw pass-through drive appears iff a physical device is set |
| Vms.CdromArgs | go-backend/vms.go:1319-1322 | -cdrom appears iff an ISO path is set |
| Vms.BootArgs | go-backend/vms.go:1324-1329 | -boot is always present, with order=cd,hd when no boot order is set |
| Vms.TapName | go-backend/vms.go:1338 | the tap name is "tap_" followed by at most ten characters of the VM name, all of them for a name of ten or fewer |
| Vms.NetworkArgs | go-backend/vms.go:1331-1345 | nat, user and bridge-with-a-name each give a netdev and a NIC with the VM's MAC address; nat is plain user networking, user forwards port 2222 to 22, bridge uses the tap; any other mode gives nothing |
| Vms.VncDisplay | go-backend/vms.go:1362-1365 | the VNC display is the port minus 5900, clamped at 0 |
| Vms.VncOptions | go-backend/vms.go:1366-1369 | the -vnc option listens on 0.0.0.0 at the clamped display, and ends with password=on iff a VNC password is set |
| Vms.DisplayArgs | go-backend/vms.go:1347-1380 | "none" gives exactly -nographic; spice gives -spice, qxl and the vdagent channel; vnc gives -vnc and the std VGA; any other type gives spice without a ticket and VNC at the unclamped display |
| Vms.QmpArgs | go-backend/vms.go:1382-1386 | -qmp appears iff the QMP socket path is set |
| Vms.BuildQemuCommand | go-backend/vms.go:1242-1401 | the append-by-append construction yields the argument groups in their fixed order |
| Vms.QemuArgsShape | go-backend/vms.go:1243-1398 | every command starts with the binary, KVM, q35, the uuid and the name, and ends -usb -device usb-tablet -daemonize |
| Vms.DisplayBranchesExclusive | go-backend/vms.go:1347-1380 | exactly one display branch contributes: -nographic only for "none", -vnc alone only for vnc, -spice alone only for spice, both otherwise |
| Vms.PortRangeStart | go-backend/vms.go:1215-1218 | the range starts at 5950 for vnc and 5900 for every other port type |
| Vms.AllocationUnique | go-backend/vms.go:1214-1232 | allocatePort's choice is determined by the ports in use: two ports meeting its description are the same |
| Vms.AllocatePort | go-backend/vms.go:1214-1232 | the port lies in start..start+100; when one is free it is the smallest port there no VM uses; when all are taken it is start |
| Vms.GeneratePassword | go-backend/vms.go:1205-1212 | twelve characters, each the alphabet character of its draw, all letters or digits |
| Vms.MacAddress | go-backend/vms.go:1201-1203 | a 17-character address under the QEMU/KVM prefix 52:54:00 with colons between the random bytes |
| Vms.Uuid | go-backend/vms.go:1194-1199 | a 36-character 8-4-4-4-12 string whose version digit is 4 and whose variant digit is one of 8, 9, a, b |
| Vms.PlanVmUpdate | go-backend/vms.go:245-312 | an undecodable body is refused; a missing VM is not found; a running VM is refused; otherwise the written columns are exactly the request's allow-listed keys, and with none there is nothing to write |
| Vms.WithCreateDefaults | go-backend/vms.go:134-209 | the new row gets the fresh uuid, the socket path from it, status stopped, no pid and no last start time, the two columns the INSERT leaves NULL; each empty MAC, disk path, format, CPU type, NIC model, cache mode, firmware and password gets its default; non-zero ports are kept; every other field is the request's, as the INSERT binds it |
| Vms.Stopped | go-backend/vms.go:1424 | a stopped row has status stopped and no pid, with every other field unchanged |
| Vms.Running | go-backend/vms.go:395 | a started row is running with the launch pid and start time, with every other field unchanged |
| Vms.LaunchedPid | go-backend/vms.go:392-393 | the pid is the trimmed launch output read as a decimal number, and 0 when that output is not a number |
| Vms.AfterRestart | go-backend/vms.go:440-461 | after a restart the VM runs with the new pid when the launch succeeded; on a failed launch it is stopped if it had been running and untouched otherwise |
| Vms.BackupPath | go-backend/vms.go:1020-1021 | a backup file lies in the backup directory and ends in .qcow2.gz |
| Vms.BackupName | go-backend/vms.go:1020 | the backup name is the VM name, an underscore and the time stamp, which reads back after the prefix |
| Vms.VmDatabase.constructor | go-backend/vms.go:90-118 | an empty table of VMs and backups |
| Vms.VmDatabase.Create | go-backend/vms.go:120-220 | a stopped row with the create defaults is inserted under a fresh id and nothing else changes; each port left at 0 is allocatePort's choice over the ports the existing rows use: the lowest free port of its range, or the range start when all are taken |
| Vms.VmDatabase.StopVm | go-backend/vms.go:1403-1425 | a signal is sent iff the row has a pid, SIGKILL when forced and SIGTERM otherwise; the row then always becomes stopped with no pid |
| Vms.VmDatabase.Start | go-backend/vms.go:355-406 | a missing VM is 404 and a running one 400, both before anything is launched; otherwise the command built from the row is launched; a failed launch is 500 and changes nothing; a successful one makes the row running with the reported pid |
| Vms.VmDatabase.Restart | go-backend/vms.go:422-472 | a missing VM is 404; a running VM with a pid gets SIGTERM; the command built from the row as it was read is launched; the reply is 500 exactly when the launch fails |
| Vms.VmDatabase.Status | go-backend/vms.go:474-507 | a running row with a pid whose process is gone is rewritten to stopped and reported as stopped; in every other case the stored status is reported and nothing changes |
| Vms.VmDatabase.Delete | go-backend/vms.go:314-353 | a missing VM is 404; otherwise a running VM with a pid gets SIGKILL, and the row is removed |
| Vms.VmDatabase.CreateBackup | go-backend/vms.go:996-1072 | a missing VM is 404; otherwise a gzip backup named after the VM and the time is recorded as "creating" under a fresh id |
| Vms.VmDatabase.FinishBackup | go-backend/vms.go:1042-1066 | the backup becomes failed on a gzip error, and otherwise completed with the file size (0 when unknown) and the completion time |
| Vms.VmDatabase.BackupStatus | go-backend/vms.go:1074-1098 | a missing backup is 404; otherwise the stored status is reported |
| Vms.VmDatabase.RestoreBackup | go-backend/vms.go:1100-1166 | a missing backup or VM is 404 and a running VM 400, none changing anything; otherwise the backup becomes "restoring" and the job is gunzip for a compressed backup and cp otherwise, onto the VM's disk |
| Vms.VmDatabase.FinishRestore | go-backend/vms.go:1142-1163 | the backup becomes completed or failed |
| Vms.VmDatabase.DeleteBackup | go-backend/vms.go:1168-1190 | a missing backup is 404; otherwise its row is removed |
| Vms.StartThenStop | go-backend/vms.go:372-395 | a start on a stopped VM leaves it running with the launch pid, and a following stop brings it back to stopped with no pid |
| VmSnapshots.WithDefaults | go-backend/vmsnapshots.go:74-79 | an empty name becomes snapshot_<time stamp> and an empty type "disk"; neither is ever empty afterwards |
| VmSnapshots.QemuImgSnapshot | go-backend/vmsnapshots.go:294-307 | the qemu-img helpers run `qemu-img snapshot <flag> <name> <disk>` |
| VmSnapshots.SocatScript | go-backend/vmsnapshots.go:349-358 | the script echoes the capabilities handshake, a newline escape and the command, and pipes them to socat on the VM's socket |
| VmSnapshots.QmpCall | go-backend/vmsnapshots.go:321-347 | every QMP helper fails for an empty socket path and then runs nothing; otherwise it runs exactly the socat script |
| VmSnapshots.QmpVerdict | go-backend/vmsnapshots.go:360-370 | the command succeeds iff socat succeeds and its output does not contain `"error"`; a socat failure reports the error and the output |
| VmSnapshots.QmpHelper | go-backend/vmsnapshots.go:321-370 | a helper with no socket runs nothing and fails; otherwise it runs the script and reports socat's verdict |
| VmSnapshots.QemuImgHelper | go-backend/vmsnapshots.go:294-307 | a qemu-img helper always runs, and its error is the tool's failure |
| VmSnapshots.TargetOf | go-backend/vmsnapshots.go:122 | the handlers see a VM as running iff its status is "running", with its socket and disk |
| VmSnapshots.KindOf | go-backend/vmsnapshots.go:123-140 | "disk" is disk-only; "memory" and "full" include the VM state; any other type is neither |
| VmSnapshots.CreateJob | go-backend/vmsnapshots.go:113-151 | a disk snapshot uses QMP on a running VM and qemu-img otherwise; one with memory fails at once on a stopped VM; a running VM without a socket fails; another type runs nothing and completes; on success the size is the image's size, 0 when unknown |
| VmSnapshots.RestoreDispatch | go-backend/vmsnapshots.go:193-215 | a running VM restores a memory or full snapshot over QMP and refuses any other type with 400; a stopped VM applies the snapshot with qemu-img, answering 200 iff the tool succeeds |
| VmSnapshots.DeleteCall | go-backend/vmsnapshots.go:246-253 | a stopped VM deletes with qemu-img; a running one over QMP, which runs nothing when there is no socket |
| VmSnapshots.LineEntry | go-backend/vmsnapshots.go:278-289 | a listing line yields an entry iff it is non-empty and has at least four fields; the entry holds the first four fields and an empty clock |
| VmSnapshots.EntriesComplete | go-backend/vmsnapshots.go:276-290 | every entry the parser yields has id, tag, size and date filled in |
| VmSnapshots.EntriesSnoc | go-backend/vmsnapshots.go:276-290 | one more line adds its own entry, or nothing, at the end |
| VmSnapshots.Body | go-backend/vmsnapshots.go:276 | the listing without its two header lines |
| VmSnapshots.ParseLine | go-backend/vmsnapshots.go:278-289 | the loop body yields exactly the line's entry |
| VmSnapshots.ListQemuSnapshots | go-backend/vmsnapshots.go:262-292 | nothing for an empty disk path or a failed qemu-img; otherwise the entries of every line after the first two, in order |
| VmSnapshots.ScanListing | go-backend/vmsnapshots.go:275-290 | the loop skips two lines and parses the rest in order |
| VmSnapshots.SnapshotTable.constructor | go-backend/vmsnapshots.go:17-58 | an empty snapshot table |
| VmSnapshots.SnapshotTable.Create | go-backend/vmsnapshots.go:60-158 | an undecodable body is 400 and a missing VM 404, neither writing; otherwise a "creating" row with the defaulted name and type is inserted under a fresh id |
| VmSnapshots.SnapshotTable.FinishCreate | go-backend/vmsnapshots.go:141-151 | the background job's last write is failed, or completed with the size and the time |
| VmSnapshots.SnapshotTable.Restore | go-backend/vmsnapshots.go:160-216 | a missing VM, or a snapshot that is missing or belongs to another VM, is 404 and runs nothing; otherwise the restore dispatch decides; the table is never written |
| VmSnapshots.SnapshotTable.Delete | go-backend/vmsnapshots.go:218-260 | after the two 404 checks the delete program runs and the row is removed whatever the program reports |
| VmTemplates.Override | go-backend/vmtemplates.go:299-310 | a requested cpu/ram/disk value replaces the template's exactly when it is positive; the result is positive iff either is |
| VmTemplates.BlankImage | go-backend/vms.go:1234-1240 | createDiskImage runs `qemu-img create -f <format, qcow2 when empty> <path> <size>G` |
| VmTemplates.DiskPlan | go-backend/vmtemplates.go:333-343 | a template with a disk gives a qcow2 overlay backed by it, followed by a `cp` only when the overlay failed; a template without one gives a blank image of the chosen size |
| VmTemplates.DiskPlanTargetsNewDisk | go-backend/vmtemplates.go:333-343 | every command of the disk plan names the new VM's disk path |
| VmTemplates.IsoChoice | go-backend/vmtemplates.go:352-356 | the caller's ISO wins; otherwise the cloud-init ISO; empty exactly when both are empty |
| VmTemplates.KeyItem | go-backend/vmtemplates.go:507-512 | a key line contributes `      - <trimmed key>` and nothing when it trims to empty |
| VmTemplates.KeyItemsEmpty | go-backend/vmtemplates.go:505-513 | the ssh_authorized_keys item list is empty exactly when every key line is blank |
| VmTemplates.UsersBlock | go-backend/vmtemplates.go:487-514 | the users section starts with the `users:` header and the named user (default "user") with sudo and bash |
| VmTemplates.DefaultUserDataShape | go-backend/vmtemplates.go:480-520 | the default user-data is `#cloud-config`, then the host name line only when a host name was given, the users section only when a user name, password or key was given, then the package_update/package_upgrade lines |
| VmTemplates.GenerateDefaultUserData | go-backend/vmtemplates.go:480-520 | the appended document equals the default user-data described above |
| VmTemplates.AppendUsers | go-backend/vmtemplates.go:487-514 | appends exactly the users section: name, sudo, shell, the trimmed openssl hash when a password was given and openssl succeeded, and the key items |
| VmTemplates.AppendKeyItems | go-backend/vmtemplates.go:507-512 | the loop over the newline-split keys appends one item per non-blank key, in order |
| VmTemplates.FillWithPlaceholdersIsIdentity | go-backend/vmtemplates.go:431-437 | substituting every placeholder by its own text leaves the user-data template unchanged |
| VmTemplates.PlaceholderFreeTemplateUnchanged | go-backend/vmtemplates.go:431-437 | a template holding none of the four placeholders is written as it is, whatever the request says |
| VmTemplates.ReplaceAllPieces | go-backend/vmtemplates.go:433-436 | strings.ReplaceAll cuts the text at the placeholder: the pieces are placeholder-free, joining them with the placeholder restores the text and joining them with the value is the result |
| VmTemplates.UserDataText | go-backend/vmtemplates.go:428-437 | an empty template gives the default user-data; a non-empty one gives the template with the four placeholders filled in source order |
| VmTemplates.MetaDataText | go-backend/vmtemplates.go:440-446 | the meta-data template when given; else `instance-id: <vm>` and `local-hostname: <host name, default the VM name>` |
| VmTemplates.CloudInitDir | go-backend/vmtemplates.go:422 | the temporary directory is /tmp/cloud-init- followed by the VM name, which reads back after the prefix |
| VmTemplates.CloudInitIsoPath | go-backend/vmtemplates.go:457 | the seed ISO lies in the VM directory, ends in -cloud-init.iso, and the VM name reads back between the two |
| VmTemplates.CloudInitFiles | go-backend/vmtemplates.go:448-454 | user-data and meta-data are always written, network-config only when the template has one |
| VmTemplates.GenIsoArgs | go-backend/vmtemplates.go:456-463 | genisoimage is called with -output, -volid cidata, -joliet, -rock and then the file paths, network-config appended only when given |
| VmTemplates.IsoPacksEveryFile | go-backend/vmtemplates.go:448-463 | every written cloud-init file is handed to genisoimage, in order, and nothing else is |
| VmTemplates.CreateCloudInitIso | go-backend/vmtemplates.go:419-477 | writes the files, runs genisoimage and cloud-localds with user-data and meta-data only when it failed, returns the ISO path only when the ISO file exists |
| VmTemplates.InstanceRow | go-backend/vmtemplates.go:358-371 | the new VM row takes the request's name, the overridden sizes, the template's cpu type, disk format, network, display and firmware, boot order cd,hd, virtio, status stopped and the QMP socket of its uuid |
| VmTemplates.TemplateOf | go-backend/vmtemplates.go:222-230 | the saved template copies the VM's sizing and device settings, with cloud-init off and download_count 0 |
| VmTemplates.TemplateName | go-backend/vmtemplates.go:188-191 | the requested name, or the VM's name followed by `_template` |
| VmTemplates.SaveThenInstantiateKeepsSizing | go-backend/vmtemplates.go:222-230 | saving a VM as a template and instantiating it without overrides reproduces the VM's cpu, ram, disk size, cpu type, disk format, network, display and firmware |
| VmTemplates.TemplateCatalog.constructor | go-backend/vmtemplates.go:28-32 | starts with no templates and the given VM rows |
| VmTemplates.TemplateCatalog.SaveAsTemplate | go-backend/vmtemplates.go:156-242 | 400 on a bad body, 404 for an unknown VM, 400 for a running VM; copies the disk only when asked and the VM has one; a failed copy or insert changes nothing; success inserts exactly TemplateOf under a fresh id |
| VmTemplates.TemplateCatalog.AllocatePorts | go-backend/vmtemplates.go:316-317 | each port is what allocatePort settles on for its column over the VMs in the table: the first free one of 5900..6000 (SPICE) or 5950..6050 (VNC), or the range start when all are taken |
| VmTemplates.TemplateCatalog.CreateFromTemplate | go-backend/vmtemplates.go:244-386 | 400 on a bad body or empty name, 404 for an unknown template; provisioning happens exactly for a valid request on an existing template; success inserts exactly InstanceRow under a fresh id, with the SPICE and VNC ports allocatePort gives over the VMs before the insert, and bumps download_count by one; any failure changes nothing |
| VmTemplates.TemplateCatalog.Instantiate | go-backend/vmtemplates.go:360-380 | the insert succeeds exactly when the database accepts it; only then is the row added, with the ports allocatePort gives over the VMs before it, and download_count incremented |
| TerminalWs.BigEndianValue | public/api/terminal-ws.php:163-166 | unpack('n'/'J'): the value of k big-endian bytes is below 256^k |
| TerminalWs.BigEndian | public/api/terminal-ws.php:202-205 | pack('n'/'J'): a number below 256^k as exactly k bytes |
| TerminalWs.BigEndianRoundTrip | public/api/terminal-ws.php:161-167 | decoding the big-endian bytes of a number gives the number back |
| TerminalWs.Pow256Widths | public/api/terminal-ws.php:161-167 | the 2-byte field holds up to 65535 and the 8-byte field up to 2^64-1 |
| TerminalWs.XorMask | public/api/terminal-ws.php:184-190 | section 5.3 of RFC 6455: same length, and byte i is payload[i] XOR mask[i mod 4] |
| TerminalWs.XorMaskInvolution | public/api/terminal-ws.php:184-190 | applying the same mask twice gives back the original bytes |
| TerminalWs.Take | public/api/terminal-ws.php:174-182 | fread(n) returns at most n bytes, fewer only at the end of the stream |
| TerminalWs.Stream.constructor | public/api/terminal-ws.php:144-145 | a socket with the incoming bytes, read from the start, nothing written |
| TerminalWs.Stream.Read | public/api/terminal-ws.php:145 | fread consumes and returns the next bytes, at most n of them |
| TerminalWs.Stream.Write | public/api/terminal-ws.php:207-208 | fwrite appends exactly the data to what was written |
| TerminalWs.Unpack16 | public/api/terminal-ws.php:161-163 | a 16-bit extended length lies in 0..65535 |
| TerminalWs.Unpack64 | public/api/terminal-ws.php:164-166 | a 64-bit extended length read into PHP's signed integer lies in -2^63..2^63-1 |
| TerminalWs.DecodeAt | public/api/terminal-ws.php:144-193 | null (no frame) iff fewer than two header bytes are left, which then consumes the rest; false iff the opcode is close (0x8, section 5.5.1 of RFC 6455); the stream never moves backwards or past its end |
| TerminalWs.PayloadBound | public/api/terminal-ws.php:173-182 | the payload is never longer than the declared length, and shorter only when the stream ran out |
| TerminalWs.DecodeAtData | public/api/terminal-ws.php:161-193 | for a data frame the reader stops right after the payload; a masked payload is unmasked, an unmasked one returned as read |
| TerminalWs.ReadFrame | public/api/terminal-ws.php:144-193 | readFrame returns exactly the frame DecodeAt describes and leaves the stream where DecodeAt says |
| TerminalWs.ReadData | public/api/terminal-ws.php:161-193 | after a non-close header: length, mask, payload and unmasking as DecodeAt describes them |
| TerminalWs.ReadMask | public/api/terminal-ws.php:169-171 | four mask bytes (or what is left) when the mask bit is set, none otherwise |
| TerminalWs.ReadLength | public/api/terminal-ws.php:155-167 | the 7-bit length, or the 2-byte or 8-byte big-endian extension after 126 or 127 |
| TerminalWs.ReadPayload | public/api/terminal-ws.php:173-182 | the loop reads until the declared length has arrived or the stream is exhausted, nothing for a non-positive length |
| TerminalWs.Unmask | public/api/terminal-ws.php:184-190 | the unmasking loop computes XorMask of the payload |
| TerminalWs.LengthField | public/api/terminal-ws.php:199-205 | section 5.2 of RFC 6455: a length up to 125 in one byte; up to 65535 as 126 and two big-endian bytes; otherwise 127 and eight big-endian bytes |
| TerminalWs.EncodeFrame | public/api/terminal-ws.php:195-209 | the frame starts with 0x81 (FIN, text opcode), is 2, 4 or 10 bytes longer than the data, and ends with the data, unmasked |
| TerminalWs.SendFrame | public/api/terminal-ws.php:195-209 | sendFrame writes exactly the encoded frame, in one write |
| TerminalWs.LengthFieldDecodes | public/api/terminal-ws.php:155-167 | the length field of a sent frame decodes back to the data's length, with the mask bit clear |
| TerminalWs.ShortLengthDecodes | public/api/terminal-ws.php:153-155 | a length up to 125 sits in the second byte with no extension |
| TerminalWs.WideLengthDecodes | public/api/terminal-ws.php:161-167 | a 16-bit or 64-bit length after its marker byte decodes to itself |
| TerminalWs.RoundTrip | public/api/terminal-ws.php:144-209 | reading a frame sendFrame wrote, whatever follows it, yields exactly the data sent and stops at the frame's end |
| TerminalWs.MaskedLengthByte | public/api/terminal-ws.php:153-155 | the second byte of a short masked frame has the mask bit and the length below it |
| TerminalWs.ClientFrameHeader | public/api/terminal-ws.php:150-171 | a masked client frame's header decodes to a non-close opcode, the mask bit and the data's length |
| TerminalWs.ClientFrameBody | public/api/terminal-ws.php:169-182 | the mask and the masked payload of a client frame are where the reader looks for them |
| TerminalWs.MaskedRoundTrip | public/api/terminal-ws.php:144-193 | reading a masked client frame gives back the data before masking, and stops after it |

## Left out

- External programs are not run. qemu, qemu-img, socat, ps, kill, tc, ip, smbpasswd, genisoimage, cloud-localds, openssl, smartctl, lsblk and the like enter as the command they are given plus a success flag or output parameter. Shell quoting and `escapeshellarg` are not modelled beyond the quoting rule `VmPhp.EscapeShellArg` states.
- Database and filesystem I/O are inputs. SQL text is not parsed. Where a handler's SQL outcome is modelled, it is an error parameter:
  - the `connected` input of `Users.UserHandlers` and the `execOk`/`insertError` inputs of `Shares.ShareDatabase`;
  - the `dbOk` input of `Alerts.AlertStore` and `VmConsole.OpenConsole`, a failed connection or statement answered "Database error" (500).
  - The read-only list/get/delete handlers outside the core are not modelled, for example the share-user CRUD in shares.go and the template listing in vmtemplates.go.
- Concurrency is not modelled:
  - the VNC proxy's two goroutines, whose close-once is modelled as a sequential flag;
  - the backup, restore, snapshot and ISO goroutines, whose completion is a separate method call;
  - the network mutexes;
  - port-allocation races.
- Go map iteration order is random. Where it matters, it is an input sequence, for example the order in which the oldest process is evicted.
- Floating point is not modelled:
  - the byte and speed renderings (`formatBytes`, `formatBytesPerSec`);
  - `strconv.FormatFloat` in alert messages;
  - the PHP log-based `formatBytes`.
  - Usage percentages are `real` values. Go's `strconv.ParseFloat` and PHP's numeric strings are read as whole decimal numbers.
- Regular expressions are abstract predicates on strings:
  - the blocked terminal commands;
  - the daemon's keyword patterns;
  - PHP `\s+` splitting.
  - The share-name pattern is the exception: it is modelled character by character, with its `$` end anchor.
- Hashes and random values are opaque inputs:
  - bcrypt and `password_hash`;
  - md5 and `uniqid`;
  - UUIDs, MAC bytes and generated passwords;
  - the SHA-1 WebSocket accept key.
- Case folding (Go `strings.EqualFold`/`ToLower`, PHP `strtolower`) is ASCII only.
- PHP `strlen` counts bytes; the model counts characters.
- PHP `in_array` loose comparison is modelled only where the source relies on it: the vm-control action switch.
- Integers are unbounded. Int64 overflow of sizes and counters is not modelled.
- Network.ClassIdHex: the tc class id is stated only below 65536. tc and cgroup commands appear as their success flags.
- Logger: the singleton, the log directory and `clearOldLogs` are left out. `Logger::exception` declares an `Exception` parameter; what its TypeError on an `Error` does to the caller is modelled in ErrorHandling.ErrorHandler.HandleException.
- LoggingDaemon: `cleanupOldLogs` is left out, because it is file I/O.
- LoggingDaemon: `monitorPhpErrors`, `monitorApacheLogs` and `monitorSystemLogs` (scripts/logging-daemon.php:342-391) only choose which files to watch and are left out as file I/O; the reads they start are LoggingDaemon.LoggingDaemon.MonitorLogFile.
- LoggingDaemon.LoggingDaemon.Tick: the health-check debug call on every 120th iteration (scripts/logging-daemon.php:127-134) and the "Logging daemon started" and "Logging daemon stopped" info calls (lines 60-64 and 157-161) are not appended to `logged`; their context is the process id, uptime and memory figures, which are process facts outside the model. The schedule that triggers the health check is LoggingDaemon.Schedule.
- Vms.TapName: Go slices `name[:10]` by bytes, so a name with multi-byte UTF-8 characters can be cut inside a character; the model's strings are sequences of characters and it slices ten characters.
- Temperature.ReadDiskTemperatures: with no disk reading Go's slice stays nil and the reply carries `"disks": null`, on which frontend/src/components/widgets/TemperatureWidget.tsx:61 reads `.length` and fails; the model returns the empty sequence and does not distinguish nil from empty.
- Network.NetworkMonitor.Toggle: the 400 "Invalid request" for a body that does not decode (go-backend/network.go:192-195) is not modelled; the model takes the decoded body.
- SystemStats: `getCpuInfo` and `getMotherboardInfo` in system-stats.php read procfs and DMI text. They are not part of this model.
- Users: `getById`, `getByUsername`, `getByEmail`, `getAll`, `updateLastLogin` and `verifyPassword` in src/User.php are single SELECTs or bcrypt calls, so they are left out.
- Shares: go-backend/shares.go updateSambaConfig never scans its result rows, so every active share is written from a zero-valued Share: a `[]` section with an empty comment and path and browseable, read only and guest ok all "no" (see Findings). `Shares.SambaConfigAsWritten` is that text; the renderer the rest of the model uses takes the share rows as its input and renders what the loop evidently means to write.
- Vms.VmDatabase: its handlers assume a reachable database and a succeeding statement; the 500 "Database error" replies of go-backend/vms.go on a failed connection, query or insert are not modelled, so Create states only the success path.
- VmSnapshots.SnapshotTable: its handlers assume a reachable database and a succeeding statement; the 500 "Database error" replies of go-backend/vmsnapshots.go are not modelled.
- VmTemplates.TemplateCatalog: its handlers assume a reachable database; the 500 "Database error" replies of go-backend/vmtemplates.go on a failed connection or query are not modelled (the failed insert of Instantiate is).
- Vms.WithCreateDefaults: the default disk path is the VM directory, a slash, the name and ".qcow2", joined without `filepath.Join`'s cleaning; for a name holding `//`, `.` or `..` segments Go stores the cleaned path (`a/../b` gives the VM directory and `b.qcow2`).
- Vms.BackupPath: joined by concatenation without `filepath.Join`'s cleaning; for a VM name with `..` segments Go's path is cleaned and can leave the backup directory, while the model's path always starts with the backup directory.
- Vms.FirmwareArgs: the OVMF VARS path is joined by concatenation without `filepath.Join`'s cleaning of the VM name.
- VmSnapshots.SnapshotTable.Create: a failing insert of the snapshot row is not modelled.
- VmPhp.PhpVmTable.Update: returns the SET clauses it would execute and does not apply them to the stored row.
- SystemStats.StatsOf: states only the split between the 401 reply and a statistics reply; the parts are stated by the members it calls.
- Vms.MacAddress: accepts draws up to 0xff inclusive, while `rand.Intn(0xff)` draws below 0xff.
- Vms.Uuid: accepts draws up to 0xffff (0x0fff, 0x3fff for the version and variant groups) inclusive, while `rand.Intn` draws below them.
- Shares.ShareDatabase.CreateShare: the default path is `/srv/samba/` plus the name, joined without the cleaning `filepath.Join` does. An empty name gives `/srv/samba` as in Go, but names holding `//`, `.` or `..` segments or a trailing slash are stored uncleaned.
- VmTemplates.InstanceRow: the disk path is the VM directory, a slash and the file name, without `filepath.Join`'s cleaning of `//`, `..` and trailing slashes in the VM name.
- VmTemplates.CloudInitDir: the directory is joined by concatenation, without `filepath.Join`'s cleaning of the VM name.
- VmTemplates.CloudInitIsoPath: the ISO path is joined by concatenation, without `filepath.Join`'s cleaning of the VM name.
- VmTemplates.TemplateCatalog.SaveAsTemplate: the template disk path is joined by concatenation, without `filepath.Join`'s cleaning of the template name.
- VmTemplates.InstanceRow: the description, os_type, os_version and created_by columns of the vms insert are not kept, because the shared `Vms.Vm` row has no such fields.
- VmSnapshots.ListQemuSnapshots: an empty result is the empty sequence; Go returns a nil slice, which encodes as JSON `null` rather than `[]`.
- MainConfig.Environment.LoadEnvFile: reads every line whatever its length; `bufio.Scanner` stops at a line over 64 KiB, and `scanner.Err()` is not modelled.
- SharePhp.ShareStore.UpdateSharePermissions: the username order of the `ORDER BY` read-back is an input, required to list every permission row of the share exactly once; the `chmod 644` after the configuration is moved is unchecked in the source and not modelled.
- SharePhp.ShareStore.SetPermission: the same username order is an input, as for UpdateSharePermissions.

## Findings

| source | as written | input that shows it | evidently intended | confidence | as-written member | corrected member |
|---|---|---|---|---|---|---|
| src/Share.php:61 | `/^[a-zA-Z0-9_-]+$/` lets a name end in a line break, because `$` also matches before a final newline | name `"docs\n"` | only letters, digits, `-` and `_` | not executed | SharePhp.TrailingNewlineAccepted | SharePhp.ValidNameHeader |
| go-backend/storage.go:229-245 | statfs is asked about the mount path as /proc/mounts escapes it | a partition mounted at `/mnt/my disk`, listed as `/mnt/my\040disk` | statfs on the decoded path, so the partition is listed | not executed | Storage.EscapedMountDropped | Storage.DevMountListed |
| go-backend/system.go:106-112 | the usage divides by MemTotal even when the line is missing | a meminfo without a MemTotal line | usage 0 when the total is not positive | not executed | SystemInfo.MissingMemTotal | SystemInfo.MemoryOf |
| public/api/system-stats.php:204-211 | the `eth` test runs before the `veth` test | interface `veth1a2b` | shown as a virtual interface | not executed | SystemStats.VethShownAsEthernet | SystemStats.InterfaceType |
| go-backend/temperature.go:294-303 | the value is taken from the last field of the line | a Temperature_Celsius line ending in `35 (Min/Max 20/45)` | the RAW_VALUE column, the tenth field | not executed | Temperature.AnnotatedLineIgnored | Temperature.RawValueRead |
| go-backend/alerts.go:183-187 | 404 whenever the UPDATE reports no changed row | saving a rule with its current values | 404 only for an unknown id | not executed | Alerts.UnchangedUpdateNotFound | Alerts.UpdateReply |
| go-backend/shares.go:695-703 | the rows of the SELECT are never scanned, so each active share is rendered from a zero-valued Share | one active share named `docs` | the section `[docs]` with the share's comment, path and flags | not executed | Shares.EmptySectionsWritten | Shares.ConfigReadsBack |
| public/api/vm-control.php:208-255 | the backup branches call createBackup, getBackups, getAllBackups, checkBackupStatus, restoreBackup, getBackupById and deleteBackup, none of which class VM in src/VM.php defines | action `create_backup` | the backup is started, answered with its id, and logged | not executed | VmControl.BackupActionsFail | VmControl.VmControl.Dispatch |
| scripts/logging-daemon.php:406-421 | a file shorter than the stored offset is never read again | a log rotated to a shorter file | read the new file from its start | not executed | LoggingDaemon.RotatedLogIgnored | LoggingDaemon.ReadWindow |
