/**
 * The in-memory bookkeeping of the network page (go-backend/network.go):
 * the subnet guess and client address behind the interface toggle, the
 * capped bandwidth and per-process histories, the newest-first event log,
 * and the class ids of per-process bandwidth throttles.
 *
 * The package-level variables guarded by mutexes are the fields of one
 * `NetworkMonitor` object; each handler runs as one method call. Clocks
 * are `now` parameters and the output of `ip`, `tc` and the cgroup file
 * writes are oracle parameters.
 */
module Network {
  import opened Text

  const MaxHistorySize: nat := 120
  const MaxProcessHistorySize: nat := 120
  const MaxTrackedProcesses: nat := 100
  const MaxNetworkEvents: nat := 500
  const FirstClassId: int := 100

  // ------------------------------------------------------------------ addresses

  /** sameNetwork: both addresses have four dot-separated parts and the first three agree. */
  predicate SameNetwork(ip1: string, ip2: string) {
    var p1, p2 := Split(ip1, '.'), Split(ip2, '.');
    |p1| == 4 && |p2| == 4 && p1[0] == p2[0] && p1[1] == p2[1] && p1[2] == p2[2]
  }

  /** A dotted quad a.b.c.d. */
  function Quad(a: string, b: string, c: string, d: string): string {
    a + "." + b + "." + c + "." + d
  }

  lemma SplitQuad(a: string, b: string, c: string, d: string)
    requires '.' !in a && '.' !in b && '.' !in c && '.' !in d
    ensures Split(Quad(a, b, c, d), '.') == [a, b, c, d]
  {
    assert Quad(a, b, c, d) == a + ['.'] + (b + ['.'] + (c + ['.'] + d));
    SplitFirstPart(a, '.', b + ['.'] + (c + ['.'] + d));
    SplitFirstPart(b, '.', c + ['.'] + d);
    SplitFirstPart(c, '.', d);
    SplitNoSeparator(d, '.');
  }

  /** Two dotted quads are in the same network exactly when their first three octets agree. */
  lemma SameNetworkOfQuads(a: string, b: string, c: string, d: string, a2: string, b2: string, c2: string, d2: string)
    requires '.' !in a && '.' !in b && '.' !in c && '.' !in d
    requires '.' !in a2 && '.' !in b2 && '.' !in c2 && '.' !in d2
    ensures SameNetwork(Quad(a, b, c, d), Quad(a2, b2, c2, d2)) <==> a == a2 && b == b2 && c == c2
  {
    SplitQuad(a, b, c, d);
    SplitQuad(a2, b2, c2, d2);
  }

  /** An address without a dot (an IPv6 address, a host name) is never in the same network as anything. */
  lemma NoDotNoNetwork(ip1: string, ip2: string)
    requires '.' !in ip1
    ensures !SameNetwork(ip1, ip2) && !SameNetwork(ip2, ip1)
  {
    SplitNoSeparator(ip1, '.');
  }

  /** The host part of RemoteAddr: everything before the last ':', without surrounding brackets. */
  function HostOfRemoteAddr(addr: string): string {
    var k := LastIndexOf(addr, ':');
    var host := if k >= 0 then addr[..k] else addr;
    TrimChars(host, {'[', ']'})
  }

  /** getClientIP: X-Forwarded-For's first hop, else X-Real-IP, else the host of RemoteAddr. */
  function ClientIP(xff: string, xri: string, remoteAddr: string): (ip: string)
    ensures xff == "" && xri != "" ==> ip == xri
    ensures xff == "" && xri == "" ==> ip == HostOfRemoteAddr(remoteAddr)
    ensures xff != "" ==> ip == GoTrim(Split(xff, ',')[0])
  {
    if xff != "" then GoTrim(Split(xff, ',')[0])
    else if xri != "" then xri
    else HostOfRemoteAddr(remoteAddr)
  }

  /** With a proxy chain, the client is the first hop, trimmed, whatever the other headers say. */
  lemma ForwardedFirstHop(first: string, rest: string, xri: string, remoteAddr: string)
    requires ',' !in first
    ensures ClientIP(first + "," + rest, xri, remoteAddr) == GoTrim(first)
  {
    SplitFirstPart(first, ',', rest);
  }

  /** A single forwarded address is taken whole, trimmed. */
  lemma ForwardedSingle(xff: string, xri: string, remoteAddr: string)
    requires xff != "" && ',' !in xff
    ensures ClientIP(xff, xri, remoteAddr) == GoTrim(xff)
  {
    SplitNoSeparator(xff, ',');
  }

  /** Without proxy headers an IPv4 RemoteAddr host:port gives the host. */
  lemma RemoteAddrV4(host: string, port: string)
    requires ':' !in port
    requires host != [] && host[0] !in {'[', ']'} && host[|host| - 1] !in {'[', ']'}
    ensures ClientIP("", "", host + ":" + port) == host
  {
    LastIndexOfAppend(host, ':', port);
    var addr := host + ":" + port;
    assert addr[..|host|] == host;
  }

  /** Without proxy headers an IPv6 RemoteAddr [host]:port gives the host without brackets. */
  lemma RemoteAddrV6(host: string, port: string)
    requires ':' !in port
    requires host != [] && host[0] !in {'[', ']'} && host[|host| - 1] !in {'[', ']'}
    ensures ClientIP("", "", "[" + host + "]:" + port) == host
  {
    var bracketed := "[" + host + "]";
    assert "[" + host + "]:" + port == bracketed + ":" + port;
    LastIndexOfAppend(bracketed, ':', port);
    var addr := bracketed + ":" + port;
    assert addr[..|bracketed|] == bracketed;
    assert bracketed[1..] == host + "]";
    assert (host + "]")[..|host|] == host;
    assert TrimChars(host + "]", {'[', ']'}) == host;
  }

  // ------------------------------------------------------------------ interface toggle

  /** One `inet` line of `ip addr show` whose address shares the client's network. */
  predicate InetMatches(line: string, clientIP: string) {
    var t := GoTrim(line);
    var parts := Fields(t);
    HasPrefix(t, "inet ") && |parts| >= 2 && SameNetwork(Split(parts[1], '/')[0], clientIP)
  }

  /** Some line of `ip addr show` is an `inet` line in the client's network. */
  predicate AnyInetMatch(lines: seq<string>, clientIP: string)
    decreases |lines|
  {
    lines != [] && (InetMatches(lines[0], clientIP) || AnyInetMatch(lines[1..], clientIP))
  }

  /** isInterfaceUsedByIP, as a property of the two command outputs (None when `ip addr` fails). */
  predicate UsedByIP(iface: string, clientIP: string, addrOutput: Option<string>, routeOutput: string) {
    addrOutput.Some?
    && (AnyInetMatch(Split(addrOutput.value, '\n'), clientIP) || Contains(routeOutput, "dev " + iface))
  }

  /** isInterfaceUsedByIP: the line loop over `ip addr show`, then the route check. */
  method InterfaceUsedByIP(iface: string, clientIP: string, addrOutput: Option<string>, routeOutput: string)
    returns (used: bool)
    ensures used == UsedByIP(iface, clientIP, addrOutput, routeOutput)
  {
    if addrOutput == None {
      return false;
    }
    var lines := Split(addrOutput.value, '\n');
    used := ScanInetLines(lines, clientIP);
    if !used {
      used := Contains(routeOutput, "dev " + iface);
    }
  }

  /** The loop over the lines of `ip addr show`, stopping at the first match. */
  method ScanInetLines(lines: seq<string>, clientIP: string) returns (found: bool)
    ensures found == AnyInetMatch(lines, clientIP)
  {
    var i := 0;
    while i < |lines|
      invariant 0 <= i <= |lines|
      invariant AnyInetMatch(lines, clientIP) == AnyInetMatch(lines[i..], clientIP)
    {
      assert lines[i..][1..] == lines[i + 1..];
      if InetMatches(lines[i], clientIP) {
        return true;
      }
      i := i + 1;
    }
    found := false;
  }

  // ------------------------------------------------------------------ default interface

  /** The token after the first `dev` that has a successor, or "" when there is none. */
  function DevTarget(fields: seq<string>): (r: string)
    ensures r != "" ==> exists i :: 0 <= i < |fields| - 1 && fields[i] == "dev" && fields[i + 1] == r
    decreases |fields|
  {
    if |fields| < 2 then ""
    else if fields[0] == "dev" then fields[1]
    else
      var r := DevTarget(fields[1..]);
      assert r != "" ==> exists i :: 0 <= i < |fields| - 1 && fields[i] == "dev" && fields[i + 1] == r by {
        if r != "" {
          var i :| 0 <= i < |fields[1..]| - 1 && fields[1..][i] == "dev" && fields[1..][i + 1] == r;
          assert fields[i + 1] == "dev" && fields[i + 2] == r;
        }
      }
      r
  }

  /** The first `dev` with a successor decides, and a non-empty successor is always found. */
  lemma {:induction false} DevTargetFirst(fields: seq<string>, i: nat)
    requires i < |fields| - 1 && fields[i] == "dev"
    requires forall j :: 0 <= j < i ==> fields[j] != "dev"
    ensures DevTarget(fields) == fields[i + 1]
    decreases i
  {
    if i > 0 {
      DevTargetFirst(fields[1..], i - 1);
    }
  }

  /** getDefaultInterface: the field loop over `ip route show default` (None when the command fails). */
  method DefaultInterface(output: Option<string>) returns (iface: string)
    ensures iface == (if output == None then "" else DevTarget(Fields(output.value)))
  {
    if output == None {
      return "";
    }
    var fields := Fields(output.value);
    for i := 0 to |fields|
      invariant forall j :: 0 <= j < i && j + 1 < |fields| ==> fields[j] != "dev"
    {
      if fields[i] == "dev" && i + 1 < |fields| {
        DevTargetFirst(fields, i);
        return fields[i + 1];
      }
    }
    DevTargetNone(fields);
    iface := "";
  }

  lemma {:induction false} DevTargetNone(fields: seq<string>)
    requires forall j :: 0 <= j < |fields| - 1 ==> fields[j] != "dev"
    ensures DevTarget(fields) == ""
    decreases |fields|
  {
    if |fields| >= 2 {
      DevTargetNone(fields[1..]);
    }
  }

  // ------------------------------------------------------------------ records

  datatype ProcessEntry = ProcessEntry(timestamp: int, rxSpeed: real, txSpeed: real, rxBytes: int, txBytes: int)

  datatype BandwidthEntry = BandwidthEntry(timestamp: int, totalRx: real, totalTx: real,
                                           interfacesRx: map<string, real>, interfacesTx: map<string, real>)

  datatype Event = Event(id: int, timestamp: int, kind: string, iface: string, description: string, details: string)

  datatype Throttle = Throttle(pid: int, name: string, downloadLimit: int, uploadLimit: int,
                               iface: string, classId: int, cgroupPath: string)

  /** Every tracked pid has between one and 120 history entries. */
  predicate HistoriesCapped(m: map<int, seq<ProcessEntry>>) {
    forall p :: p in m ==> 0 < |m[p]| <= MaxProcessHistorySize
  }

  /** pid holds a history whose first entry is no later than any other history's first entry. */
  predicate Oldest(m: map<int, seq<ProcessEntry>>, pid: int) {
    pid in m && |m[pid]| > 0
    && forall q :: q in m && |m[q]| > 0 ==> m[pid][0].timestamp <= m[q][0].timestamp
  }

  /**
   * The event log after `id` events: the newest first, one id apart, at
   * most 500 of them.
   */
  predicate EventsValid(events: seq<Event>, id: int) {
    id >= 0 && |events| == Min(id, MaxNetworkEvents)
    && forall i :: 0 <= i < |events| ==> events[i].id == id - i
  }

  /** Throttled pids hold distinct class ids from 100 up to, not including, the next one to hand out. */
  predicate ThrottlesValid(throttles: map<int, Throttle>, nextClassId: int) {
    FirstClassId <= nextClassId
    && (forall p :: p in throttles ==> throttles[p].pid == p && FirstClassId <= throttles[p].classId < nextClassId)
    && (forall p, q :: p in throttles && q in throttles && p != q ==> throttles[p].classId != throttles[q].classId)
  }

  // ------------------------------------------------------------------ throttling

  /** The rate of one direction: max(1, limit*8/1000) kbit/s for a positive limit, 1000 mbit/s otherwise. */
  function Rate(limit: int): (r: string)
    ensures limit <= 0 ==> r == "1000mbit"
    ensures limit > 0 ==> r == NatToString(Max(1, limit * 8 / 1000)) + "kbit"
    ensures limit >= 125 ==> r == NatToString(limit * 8 / 1000) + "kbit"
  {
    if limit > 0 then NatToString(Max(1, limit * 8 / 1000)) + "kbit" else "1000mbit"
  }

  /**
   * The net_cls class id, major 1 and minor classId, as printed by %04x%04x.
   * Every id the counter reaches before 65536 prints as ten characters,
   * "0x0001" and four hex digits.
   */
  function ClassIdHex(classId: nat): (h: string)
    ensures classId < 65536 ==> |h| == 10 && h[..6] == "0x0001" && h[6..] == HexPad(classId, 4)
  {
    assert HexPad(1, 4) == "0001";
    if classId < 65536 then
      assert Pow16(4) == 65536;
      HexWidth(classId, 4);
      "0x" + HexPad(1, 4) + HexPad(classId, 4)
    else "0x" + HexPad(1, 4) + HexPad(classId, 4)
  }

  function CgroupPath(netCls: string, pid: int): string {
    netCls + "/throttle_" + IntToString(pid)
  }

  datatype ThrottleRequest = ThrottleRequest(pid: int, downloadLimit: int, uploadLimit: int, iface: string)

  /**
   * What SetProcessThrottleHandler learns from the host: whether /proc/<pid>
   * exists, its comm file, `ip route show default`, the two net_cls mount
   * points, and whether each write or command succeeds.
   */
  datatype ThrottleHost = ThrottleHost(
    processExists: bool, comm: Option<string>, defaultRoute: Option<string>,
    netClsExists: bool, legacyNetClsExists: bool, initOk: bool,
    mkdirOk: bool, tasksWriteOk: bool, procsWriteOk: bool, classIdWriteOk: bool, tcClassOk: bool)

  datatype ThrottleError =
    | InvalidPid | ProcessNotFound | NoInterface | NetClsMissing | InitFailed
    | CgroupFailed | CgroupJoinFailed | ClassIdFailed | TcClassFailed

  datatype ThrottleResult = Throttled(throttle: Throttle) | ThrottleRefused(error: ThrottleError)

  /** The checks before a class id is chosen, in the handler's order. */
  datatype Gate = GateRefused(error: ThrottleError) | GateOpen(iface: string, netCls: string, name: string)

  /** The interface asked for, or else the default route's. */
  function ChosenIface(req: ThrottleRequest, host: ThrottleHost): string {
    if req.iface != "" then req.iface
    else if host.defaultRoute == None then "" else DevTarget(Fields(host.defaultRoute.value))
  }

  function ThrottleGate(req: ThrottleRequest, host: ThrottleHost, initialized: set<string>): (g: Gate)
    ensures req.pid <= 0 ==> g == GateRefused(InvalidPid)
    ensures g.GateOpen? ==> g.iface == ChosenIface(req, host)
    ensures g.GateOpen? <==> req.pid > 0 && host.processExists && ChosenIface(req, host) != ""
                             && (host.netClsExists || host.legacyNetClsExists)
                             && (ChosenIface(req, host) in initialized || host.initOk)
  {
    if req.pid <= 0 then GateRefused(InvalidPid)
    else if !host.processExists then GateRefused(ProcessNotFound)
    else
      var name := if host.comm == None then "" else GoTrim(host.comm.value);
      var iface := ChosenIface(req, host);
      if iface == "" then GateRefused(NoInterface)
      else if !host.netClsExists && !host.legacyNetClsExists then GateRefused(NetClsMissing)
      else if iface !in initialized && !host.initOk then GateRefused(InitFailed)
      else
        var netCls := if host.netClsExists then "/sys/fs/cgroup/net_cls" else "/sys/fs/cgroup/net_cls,net_prio";
        GateOpen(iface, netCls, name)
  }

  /** The cgroup and tc steps after the class id is chosen; None when all of them succeed. */
  function CgroupFailure(host: ThrottleHost, known: bool): (e: Option<ThrottleError>)
    ensures e == None <==> (known || host.mkdirOk) && (host.tasksWriteOk || host.procsWriteOk)
                           && host.classIdWriteOk && host.tcClassOk
  {
    if !known && !host.mkdirOk then Some(CgroupFailed)
    else if !host.tasksWriteOk && !host.procsWriteOk then Some(CgroupJoinFailed)
    else if !host.classIdWriteOk then Some(ClassIdFailed)
    else if !host.tcClassOk then Some(TcClassFailed)
    else None
  }

  // ------------------------------------------------------------------ the monitor

  class NetworkMonitor {
    var bandwidthHistory: seq<BandwidthEntry>
    var processHistory: map<int, seq<ProcessEntry>>
    var networkEvents: seq<Event>
    var networkEventId: int
    var processThrottles: map<int, Throttle>
    var nextClassId: int
    var throttleInitialized: set<string>
    /** Every bandwidth reading ever recorded, oldest first. */
    ghost var bandwidthLog: seq<BandwidthEntry>

    ghost predicate Valid()
      reads this
    {
      bandwidthHistory == Newest(bandwidthLog, MaxHistorySize)
      && HistoriesCapped(processHistory)
      && EventsValid(networkEvents, networkEventId)
      && ThrottlesValid(processThrottles, nextClassId)
    }

    constructor ()
      ensures Valid()
      ensures bandwidthHistory == [] && networkEvents == []
      ensures processHistory == map[]
      ensures processThrottles == map[]
      ensures nextClassId == FirstClassId
      ensures throttleInitialized == {}
    {
      new;
      bandwidthHistory := [];
      processHistory := map[];
      networkEvents := [];
      networkEventId := 0;
      processThrottles := map[];
      nextClassId := FirstClassId;
      throttleInitialized := {};
      bandwidthLog := [];
    }

    /** addBandwidthHistory: append, then keep the newest 120. */
    method AddBandwidthHistory(entry: BandwidthEntry)
      requires Valid()
      modifies this`bandwidthHistory, this`bandwidthLog
      ensures Valid()
      ensures bandwidthHistory == Newest(old(bandwidthHistory) + [entry], MaxHistorySize)
      ensures bandwidthLog == old(bandwidthLog) + [entry]
    {
      NewestAppend(bandwidthLog, entry, MaxHistorySize);
      bandwidthHistory := bandwidthHistory + [entry];
      if |bandwidthHistory| > MaxHistorySize {
        bandwidthHistory := bandwidthHistory[|bandwidthHistory| - MaxHistorySize..];
      }
      bandwidthLog := bandwidthLog + [entry];
    }

    /** logNetworkEvent: the next id, put first, the list cut to 500. */
    method LogEvent(kind: string, iface: string, description: string, details: string, now: int)
      requires EventsValid(networkEvents, networkEventId)
      modifies this`networkEvents, this`networkEventId
      ensures networkEventId == old(networkEventId) + 1
      ensures networkEvents == Truncate([Event(networkEventId, now, kind, iface, description, details)] + old(networkEvents),
                                        MaxNetworkEvents)
      ensures EventsValid(networkEvents, networkEventId)
    {
      networkEventId := networkEventId + 1;
      var event := Event(networkEventId, now, kind, iface, description, details);
      networkEvents := [event] + networkEvents;
      if |networkEvents| > MaxNetworkEvents {
        networkEvents := networkEvents[..MaxNetworkEvents];
      }
    }

    /**
     * addProcessHistory: append to the pid's history and keep its newest
     * 120 entries; when more than 100 pids are tracked, drop the one whose
     * history starts earliest, unless that is pid 0.
     */
    method AddProcessHistory(pid: int, entry: ProcessEntry, order: seq<int>)
      requires HistoriesCapped(processHistory)
      requires pid in order && forall p :: p in processHistory ==> p in order
      modifies this`processHistory
      ensures HistoriesCapped(processHistory)
      ensures var staged := Staged(old(processHistory), pid, entry);
        processHistory == staged
        || (|staged| > MaxTrackedProcesses
            && exists evicted :: evicted != 0 && Oldest(staged, evicted) && processHistory == staged - {evicted})
      ensures |Staged(old(processHistory), pid, entry)| <= MaxTrackedProcesses
              ==> processHistory == Staged(old(processHistory), pid, entry)
      ensures |Staged(old(processHistory), pid, entry)| > MaxTrackedProcesses && 0 !in Staged(old(processHistory), pid, entry)
              ==> |processHistory| == |Staged(old(processHistory), pid, entry)| - 1
    {
      var history := Lookup(processHistory, pid) + [entry];
      if |history| > MaxProcessHistorySize {
        history := history[|history| - MaxProcessHistorySize..];
      }
      StagedCapped(processHistory, pid, entry);
      processHistory := processHistory[pid := history];
      assert processHistory == Staged(old(processHistory), pid, entry);
      if |processHistory| > MaxTrackedProcesses {
        EvictOldest(order, pid);
      }
    }

    /** The eviction step of addProcessHistory: drop the pid whose history starts earliest, unless it is pid 0. */
    method EvictOldest(order: seq<int>, ghost tracked: int)
      requires HistoriesCapped(processHistory) && tracked in processHistory
      requires forall p :: p in processHistory ==> p in order
      modifies this`processHistory
      ensures HistoriesCapped(processHistory)
      ensures processHistory == old(processHistory)
              || exists evicted :: evicted != 0 && Oldest(old(processHistory), evicted)
                                   && processHistory == old(processHistory) - {evicted}
      ensures 0 !in old(processHistory) ==> |processHistory| == |old(processHistory)| - 1
    {
      assert |processHistory[tracked]| > 0;
      var oldest := OldestPid(processHistory, order);
      if oldest != 0 {
        processHistory := processHistory - {oldest};
      }
    }

    /** SetProcessThrottleHandler's bookkeeping: the gates, the class id, the cgroup steps, the map and the log. */
    method SetProcessThrottle(req: ThrottleRequest, host: ThrottleHost, now: int) returns (r: ThrottleResult)
      requires Valid()
      modifies this`processThrottles, this`nextClassId, this`throttleInitialized, this`networkEvents, this`networkEventId
      ensures Valid()
      ensures var g := ThrottleGate(req, host, old(throttleInitialized));
        g.GateRefused? ==>
          (r == ThrottleRefused(g.error) && throttleInitialized == old(throttleInitialized)
           && nextClassId == old(nextClassId))
      ensures var g := ThrottleGate(req, host, old(throttleInitialized));
        g.GateOpen? ==>
          (throttleInitialized == old(throttleInitialized) + {g.iface}
           && nextClassId == old(nextClassId) + (if req.pid in old(processThrottles) then 0 else 1))
      ensures var g := ThrottleGate(req, host, old(throttleInitialized));
        r.Throttled? <==> g.GateOpen? && CgroupFailure(host, req.pid in old(processThrottles)) == None
      ensures var g := ThrottleGate(req, host, old(throttleInitialized));
        r.Throttled? ==>
          (g.GateOpen? && r.throttle == Throttle(req.pid, g.name, req.downloadLimit, req.uploadLimit, g.iface,
                                                 ClassIdFor(old(processThrottles), old(nextClassId), req.pid),
                                                 CgroupPath(g.netCls, req.pid)))
      ensures r.Throttled? ==> processThrottles == old(processThrottles)[req.pid := r.throttle]
      ensures r.ThrottleRefused? ==> processThrottles == old(processThrottles)
      ensures r.ThrottleRefused? ==> networkEvents == old(networkEvents) && networkEventId == old(networkEventId)
      ensures r.Throttled? ==> networkEventId == old(networkEventId) + 1 && networkEvents[0].kind == "throttle_set"
    {
      var g := ThrottleGate(req, host, throttleInitialized);
      if g.GateRefused? {
        return ThrottleRefused(g.error);
      }
      throttleInitialized := throttleInitialized + {g.iface};
      r := ApplyThrottle(req, host, g.iface, g.name, g.netCls, now);
    }

    /** The handler after its gates: the class id, the cgroup and tc steps, the map and the log. */
    method ApplyThrottle(req: ThrottleRequest, host: ThrottleHost, iface: string, name: string, netCls: string, now: int)
      returns (r: ThrottleResult)
      requires Valid() && req.pid > 0
      modifies this`processThrottles, this`nextClassId, this`networkEvents, this`networkEventId
      ensures Valid()
      ensures nextClassId == old(nextClassId) + (if req.pid in old(processThrottles) then 0 else 1)
      ensures r.Throttled? <==> CgroupFailure(host, req.pid in old(processThrottles)) == None
      ensures r.Throttled? ==>
                r.throttle == Throttle(req.pid, name, req.downloadLimit, req.uploadLimit, iface,
                                       ClassIdFor(old(processThrottles), old(nextClassId), req.pid),
                                       CgroupPath(netCls, req.pid))
      ensures r.Throttled? ==> processThrottles == old(processThrottles)[req.pid := r.throttle]
      ensures r.ThrottleRefused? ==> r.error == CgroupFailure(host, req.pid in old(processThrottles)).value
      ensures r.ThrottleRefused? ==> processThrottles == old(processThrottles)
      ensures r.ThrottleRefused? ==> networkEvents == old(networkEvents) && networkEventId == old(networkEventId)
      ensures r.Throttled? ==> networkEventId == old(networkEventId) + 1 && networkEvents[0].kind == "throttle_set"
    {
      var known := req.pid in processThrottles;
      var classId := AllocateClassId(req.pid);
      var failure := CgroupFailure(host, known);
      if failure.Some? {
        return ThrottleRefused(failure.value);
      }
      var download, upload := Rate(req.downloadLimit), Rate(req.uploadLimit);
      var throttle := Throttle(req.pid, name, req.downloadLimit, req.uploadLimit, iface, classId, CgroupPath(netCls, req.pid));
      InstallThrottle(throttle);
      LogEvent("throttle_set", iface, "Bandwidth limit set for " + name + " (PID " + IntToString(req.pid) + ")",
               "Download: " + download + ", Upload: " + upload, now);
      r := Throttled(throttle);
    }

    /** The class id: the pid's own if it is already throttled, otherwise the counter, which then moves on. */
    method AllocateClassId(pid: int) returns (classId: int)
      requires ThrottlesValid(processThrottles, nextClassId)
      modifies this`nextClassId
      ensures classId == ClassIdFor(processThrottles, old(nextClassId), pid)
      ensures nextClassId == old(nextClassId) + (if pid in processThrottles then 0 else 1)
      ensures ThrottlesValid(processThrottles, nextClassId)
      ensures pid !in processThrottles ==> forall p :: p in processThrottles ==> processThrottles[p].classId < classId
    {
      if pid in processThrottles {
        classId := processThrottles[pid].classId;
      } else {
        classId := nextClassId;
        nextClassId := nextClassId + 1;
      }
    }

    /** processThrottles[pid] = throttle, with a class id no other pid holds. */
    method InstallThrottle(t: Throttle)
      requires ThrottlesValid(processThrottles, nextClassId)
      requires t.pid > 0 && FirstClassId <= t.classId < nextClassId
      requires t.pid in processThrottles ==> t.classId == processThrottles[t.pid].classId
      requires t.pid !in processThrottles ==> forall p :: p in processThrottles ==> processThrottles[p].classId < t.classId
      modifies this`processThrottles
      ensures processThrottles == old(processThrottles)[t.pid := t]
      ensures ThrottlesValid(processThrottles, nextClassId)
    {
      processThrottles := processThrottles[t.pid := t];
    }

    /** RemoveProcessThrottleHandler: a pid that does not parse or is not throttled is refused; otherwise its entry goes. */
    method RemoveProcessThrottle(pidText: string, now: int) returns (reply: Reply)
      requires Valid()
      modifies this`processThrottles, this`networkEvents, this`networkEventId
      ensures Valid()
      ensures Atoi(pidText) == None ==> reply == Reply(400, "Invalid PID") && processThrottles == old(processThrottles)
      ensures Atoi(pidText).Some? && Atoi(pidText).value !in old(processThrottles)
              ==> reply == Reply(200, "Process is not throttled") && processThrottles == old(processThrottles)
                  && networkEvents == old(networkEvents)
      ensures Atoi(pidText).Some? && Atoi(pidText).value in old(processThrottles)
              ==> reply == OK && processThrottles == old(processThrottles) - {Atoi(pidText).value}
                  && networkEventId == old(networkEventId) + 1
                  && var t := old(processThrottles)[Atoi(pidText).value];
                     networkEvents == Truncate([Event(networkEventId, now, "throttle_removed", t.iface,
                                                      "Bandwidth limit removed for " + t.name + " (PID " + IntToString(t.pid) + ")", "")]
                                               + old(networkEvents), MaxNetworkEvents)
    {
      var parsed := Atoi(pidText);
      if parsed == None {
        return Reply(400, "Invalid PID");
      }
      var pid := parsed.value;
      if pid !in processThrottles {
        return Reply(200, "Process is not throttled");
      }
      var throttle := processThrottles[pid];
      processThrottles := processThrottles - {pid};
      LogEvent("throttle_removed", throttle.iface,
               "Bandwidth limit removed for " + throttle.name + " (PID " + IntToString(pid) + ")", "", now);
      reply := OK;
    }

    /**
     * ToggleNetworkInterfaceHandler: only `up` and `down`; a non-forced
     * `down` of the interface the client reaches us through is refused
     * before `ip link set` runs; otherwise the outcome is logged.
     */
    method Toggle(name: string, action: string, force: bool, xff: string, xri: string, remoteAddr: string,
                  addrOutput: Option<string>, routeOutput: string, ipOk: bool, ipOutput: string, now: int)
      returns (r: ToggleResult)
      requires Valid()
      modifies this`networkEvents, this`networkEventId
      ensures Valid()
      ensures action != "up" && action != "down" ==> r == BadAction
      ensures r == ActiveConnection
              <==> action == "down" && !force && UsedByIP(name, ClientIP(xff, xri, remoteAddr), addrOutput, routeOutput)
      ensures r == BadAction || r == ActiveConnection ==>
                networkEventId == old(networkEventId) && networkEvents == old(networkEvents)
      ensures r.Toggled? || r.IpFailed? ==> (action == "up" || action == "down") && networkEventId == old(networkEventId) + 1
      ensures r.IpFailed? ==>
                r.output == ipOutput
                && networkEvents == Truncate([Event(networkEventId, now, "error", name, "Failed to set interface " + action, ipOutput)]
                                             + old(networkEvents), MaxNetworkEvents)
      ensures r.Toggled? ==>
                networkEvents == Truncate([Event(networkEventId, now, "interface_toggle", name, "Interface set to " + action, "")]
                                          + old(networkEvents), MaxNetworkEvents)
      ensures r.Toggled? <==> r != BadAction && r != ActiveConnection && ipOk
    {
      if action != "up" && action != "down" {
        return BadAction;
      }
      if action == "down" && !force {
        var clientIP := ClientIP(xff, xri, remoteAddr);
        var used := InterfaceUsedByIP(name, clientIP, addrOutput, routeOutput);
        if used {
          return ActiveConnection;
        }
      }
      if !ipOk {
        LogEvent("error", name, "Failed to set interface " + action, ipOutput, now);
        return IpFailed(ipOutput);
      }
      LogEvent("interface_toggle", name, "Interface set to " + action, "", now);
      r := Toggled;
    }
  }

  datatype ToggleResult = BadAction | ActiveConnection | IpFailed(output: string) | Toggled

  /** The histories after the append step of addProcessHistory: the pid's newest 120 entries. */
  function Staged(m: map<int, seq<ProcessEntry>>, pid: int, entry: ProcessEntry): map<int, seq<ProcessEntry>> {
    m[pid := Newest(Lookup(m, pid) + [entry], MaxProcessHistorySize)]
  }

  /** The append step keeps every history between one and 120 entries long. */
  lemma StagedCapped(m: map<int, seq<ProcessEntry>>, pid: int, entry: ProcessEntry)
    requires HistoriesCapped(m)
    ensures HistoriesCapped(Staged(m, pid, entry))
  {
  }

  /** The pid's history so far, empty when it is not tracked. */
  function Lookup(m: map<int, seq<ProcessEntry>>, pid: int): seq<ProcessEntry> {
    if pid in m then m[pid] else []
  }

  /** The class id a throttle of pid gets: its existing one, or the next counter value. */
  function ClassIdFor(throttles: map<int, Throttle>, nextClassId: int, pid: int): int {
    if pid in throttles then throttles[pid].classId else nextClassId
  }

  /**
   * The eviction scan of addProcessHistory, visiting the tracked pids in
   * `order`; Go leaves the iteration order of a map open, so it is an input.
   */
  method OldestPid(m: map<int, seq<ProcessEntry>>, order: seq<int>) returns (oldest: int)
    requires forall p :: p in m ==> p in order
    ensures oldest != 0 ==> Oldest(m, oldest)
    ensures oldest == 0 ==> (forall p :: p in m ==> |m[p]| == 0) || Oldest(m, 0)
  {
    oldest := 0;
    var oldestTime: Option<int> := None;
    for i := 0 to |order|
      invariant oldestTime == None ==> oldest == 0 && forall j :: 0 <= j < i && order[j] in m ==> |m[order[j]]| == 0
      invariant oldestTime.Some? ==> oldest in m && |m[oldest]| > 0 && m[oldest][0].timestamp == oldestTime.value
      invariant oldestTime.Some? ==>
                  forall j :: 0 <= j < i && order[j] in m && |m[order[j]]| > 0 ==> oldestTime.value <= m[order[j]][0].timestamp
    {
      var p := order[i];
      if p in m {
        var h := m[p];
        if |h| > 0 && (oldestTime == None || h[0].timestamp < oldestTime.value) {
          oldest := p;
          oldestTime := Some(h[0].timestamp);
        }
      }
    }
  }
}
