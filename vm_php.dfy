/**
 * The PHP VM class (src/VM.php): the older front end over the same
 * virtual_machines table. It allocates SPICE ports from the stored rows,
 * builds a space-joined QEMU command of multi-word tokens, and drives the
 * status/pid life cycle with exceptions (modelled as Err) instead of HTTP codes.
 *
 * Oracles: `diskExists`/`isoExists` are file_exists on the stored paths,
 * `diskCreated` is the exit status of qemu-img, a launch is the text the
 * shell echoed back, and `alive` is the outcome of `ps -p`.
 */
module VmPhp {
  import opened Text
  import Vms

  const VmDir := "/opt/serveros/vms"
  const LogDir := "/opt/serveros/logs/vms"

  /** One row of virtual_machines as VM.php reads it (NULL columns are None). */
  datatype PhpVm = PhpVm(
    name: string, description: string, uuid: string, cpuCores: int, ramMb: int,
    diskPath: string, diskSizeGb: int, diskFormat: string, bootOrder: string,
    isoPath: Option<string>, bootFromDisk: bool, physicalDiskDevice: Option<string>,
    networkMode: string, networkBridge: Option<string>, macAddress: string,
    displayType: string, spicePort: Option<int>, spicePassword: string, vncPort: Option<int>,
    status: string, pid: Option<int>, createdBy: Option<int>)

  /** The `$data` array given to create; a missing or null key is None. */
  datatype CreateRequest = CreateRequest(
    name: string, description: Option<string>, cpuCores: Option<int>, ramMb: Option<int>,
    diskSizeGb: Option<int>, diskFormat: Option<string>, bootOrder: Option<string>,
    isoPath: Option<string>, bootFromDisk: Option<bool>, physicalDiskDevice: Option<string>,
    networkMode: Option<string>, networkBridge: Option<string>, macAddress: Option<string>,
    displayType: Option<string>)

  /** PHP's `??`: the value when present and non-null, else the default. */
  function Coalesce<T>(o: Option<T>, d: T): (r: T)
    ensures o.Some? ==> r == o.value
    ensures o.None? ==> r == d
  {
    if o.Some? then o.value else d
  }

  /** PHP's empty() on a string column: null, "" and "0" are empty. */
  predicate EmptyText(s: Option<string>) {
    s.None? || s.value == "" || s.value == "0"
  }

  /** escapeshellarg: single-quote the text, closing and reopening the quotes around each embedded quote. */
  function EscapeShellArg(s: string): (r: string)
    ensures |r| >= 2 && r[0] == '\'' && r[|r| - 1] == '\''
    ensures '\'' !in s ==> r == "'" + s + "'"
  {
    "'" + EscapeQuotes(s) + "'"
  }

  function EscapeQuotes(s: string): (r: string)
    ensures '\'' !in s ==> r == s
    ensures |r| >= |s|
  {
    if s == [] then []
    else (if s[0] == '\'' then "'\\''" else [s[0]]) + EscapeQuotes(s[1..])
  }

  // ------------------------------------------------------------------ ports

  /** The stored, non-null spice_port values. */
  function UsedSpicePorts(rows: map<int, PhpVm>): set<int> {
    set id | id in rows && rows[id].spicePort.Some? :: rows[id].spicePort.value
  }

  /** allocatePort: the lowest port in [min, max] no row uses, or "No available ports". */
  method AllocatePort(used: set<int>, min: int, max: int) returns (r: Result<int>)
    ensures r.Ok? ==> min <= r.value <= max && r.value !in used
                      && forall p :: min <= p < r.value ==> p in used
    ensures r.Err? <==> forall p :: min <= p <= max ==> p in used
    ensures r.Err? ==> r.error == "No available ports"
  {
    var port := min;
    while port <= max
      invariant min <= port
      invariant forall p :: min <= p < port ==> p in used
    {
      if port !in used {
        return Ok(port);
      }
      port := port + 1;
    }
    return Err("No available ports");
  }

  /**
   * The row create inserts: the request's values or their defaults, the
   * generated uuid, MAC (unless one is given) and SPICE password, the disk
   * under the VM directory, and the table defaults status stopped, no pid
   * and no VNC port.
   */
  function NewRow(req: CreateRequest, uuid: string, generatedMac: string, password: string,
                  user: Option<int>, port: int): (row: PhpVm)
    ensures row.name == req.name && row.uuid == uuid && row.spicePassword == password && row.createdBy == user
    ensures row.diskPath == VmDir + "/" + req.name + ".qcow2"
    ensures row.description == Coalesce(req.description, "") && row.diskFormat == Coalesce(req.diskFormat, "qcow2")
    ensures row.cpuCores == Coalesce(req.cpuCores, 2) && row.ramMb == Coalesce(req.ramMb, 2048)
    ensures row.diskSizeGb == Coalesce(req.diskSizeGb, 20) && row.bootOrder == Coalesce(req.bootOrder, "cd,hd")
    ensures row.isoPath == req.isoPath && row.bootFromDisk == Coalesce(req.bootFromDisk, false)
    ensures row.physicalDiskDevice == req.physicalDiskDevice && row.networkBridge == req.networkBridge
    ensures row.networkMode == Coalesce(req.networkMode, "nat") && row.displayType == Coalesce(req.displayType, "spice")
    ensures row.macAddress == Coalesce(req.macAddress, generatedMac)
    ensures row.spicePort == Some(port) && row.vncPort == None && row.status == "stopped" && row.pid == None
  {
    PhpVm(req.name, Coalesce(req.description, ""), uuid, Coalesce(req.cpuCores, 2),
      Coalesce(req.ramMb, 2048), VmDir + "/" + req.name + ".qcow2", Coalesce(req.diskSizeGb, 20), Coalesce(req.diskFormat, "qcow2"),
      Coalesce(req.bootOrder, "cd,hd"), req.isoPath, Coalesce(req.bootFromDisk, false), req.physicalDiskDevice,
      Coalesce(req.networkMode, "nat"), req.networkBridge, Coalesce(req.macAddress, generatedMac),
      Coalesce(req.displayType, "spice"), Some(port), password, None, "stopped", None, user)
  }

  // ------------------------------------------------------------------ command line

  /** buildNetworkConfig: text only for nat, bridge with a bridge name, and user; the MAC always ends it. */
  function NetworkConfig(vm: PhpVm): (r: string)
    ensures r == "" <==> !(vm.networkMode == "nat" || vm.networkMode == "user"
                           || (vm.networkMode == "bridge" && !EmptyText(vm.networkBridge)))
    ensures r != "" ==> HasSuffix(r, vm.macAddress)
  {
    if vm.networkMode == "nat" then
      "-netdev user,id=net0" + " " + ("-device virtio-net-pci,netdev=net0,mac=" + vm.macAddress)
    else if vm.networkMode == "bridge" && !EmptyText(vm.networkBridge) then
      "-netdev bridge,id=net0,br=" + vm.networkBridge.value + " " + ("-device virtio-net-pci,netdev=net0,mac=" + vm.macAddress)
    else if vm.networkMode == "user" then
      "-net user" + " " + ("-net nic,model=virtio,macaddr=" + vm.macAddress)
    else ""
  }

  function Head(vm: PhpVm): seq<string> {
    ["qemu-system-x86_64", "-enable-kvm", "-cpu host",
     "-smp cores=" + IntToString(vm.cpuCores), "-m " + IntToString(vm.ramMb),
     "-machine type=q35,accel=kvm", "-uuid " + vm.uuid, "-name " + EscapeShellArg(vm.name)]
  }

  /** The disk, pass-through and ISO drives; a missing file drops its drive. */
  function DriveTokens(vm: PhpVm, diskExists: bool, isoExists: bool): (r: seq<string>)
    ensures |r| <= 3
  {
    (if !EmptyText(Some(vm.diskPath)) && diskExists
     then ["-drive file=" + EscapeShellArg(vm.diskPath) + ",if=virtio,format=" + vm.diskFormat] else [])
    + (if !EmptyText(vm.physicalDiskDevice) && vm.bootFromDisk
       then ["-drive file=" + vm.physicalDiskDevice.value + ",format=raw,if=virtio"] else [])
    + (if !EmptyText(vm.isoPath) && isoExists then ["-cdrom " + EscapeShellArg(vm.isoPath.value)] else [])
  }

  /** The display tokens: SPICE with the agent channel, VNC at the unclamped port - 5900, or none. */
  function DisplayTokens(vm: PhpVm): (r: seq<string>)
    ensures vm.displayType == "spice" ==> |r| == 5 && r[1] == "-vga qxl"
    ensures vm.displayType == "vnc" ==> r == ["-vnc :" + IntToString(Coalesce(vm.vncPort, 0) - 5900)]
    ensures vm.displayType != "spice" && vm.displayType != "vnc" ==> r == ["-display none"]
  {
    if vm.displayType == "spice" then
      ["-spice port=" + (if vm.spicePort.Some? then IntToString(vm.spicePort.value) else "") + ",addr=0.0.0.0,disable-ticketing",
       "-vga qxl", "-device virtio-serial", "-chardev spicevmc,id=vdagent,name=vdagent",
       "-device virtserialport,chardev=vdagent,name=com.redhat.spice.0"]
    else if vm.displayType == "vnc" then
      ["-vnc :" + IntToString(Coalesce(vm.vncPort, 0) - 5900)]
    else ["-display none"]
  }

  function Tail(vm: PhpVm): seq<string> {
    ["-daemonize", "-pidfile /var/run/vm-" + vm.name + ".pid"]
  }

  function QemuTokens(vm: PhpVm, diskExists: bool, isoExists: bool): seq<string> {
    Head(vm) + DriveTokens(vm, diskExists, isoExists) + ["-boot order=" + vm.bootOrder, NetworkConfig(vm)]
    + DisplayTokens(vm) + Tail(vm)
  }

  /** buildQemuCommand: pushes one token per option and implodes them with spaces. */
  method BuildQemuCommand(vm: PhpVm, diskExists: bool, isoExists: bool) returns (cmd: string)
    ensures cmd == Join(QemuTokens(vm, diskExists, isoExists), " ")
  {
    var tokens := ["qemu-system-x86_64"];
    tokens := tokens + ["-enable-kvm"];
    tokens := tokens + ["-cpu host"];
    tokens := tokens + ["-smp cores=" + IntToString(vm.cpuCores)];
    tokens := tokens + ["-m " + IntToString(vm.ramMb)];
    tokens := tokens + ["-machine type=q35,accel=kvm"];
    tokens := tokens + ["-uuid " + vm.uuid];
    tokens := tokens + ["-name " + EscapeShellArg(vm.name)];
    assert tokens == Head(vm);
    tokens := PushDrives(tokens, vm, diskExists, isoExists);
    ghost var drives := tokens;
    tokens := tokens + ["-boot order=" + vm.bootOrder];
    tokens := tokens + [NetworkConfig(vm)];
    SnocTwo(drives, "-boot order=" + vm.bootOrder, NetworkConfig(vm));
    assert tokens == Head(vm) + DriveTokens(vm, diskExists, isoExists) + ["-boot order=" + vm.bootOrder, NetworkConfig(vm)];
    tokens := PushDisplay(tokens, vm);
    ghost var beforeTail := tokens;
    tokens := tokens + ["-daemonize"];
    tokens := tokens + ["-pidfile /var/run/vm-" + vm.name + ".pid"];
    SnocTwo(beforeTail, "-daemonize", "-pidfile /var/run/vm-" + vm.name + ".pid");
    assert tokens == beforeTail + Tail(vm);
    cmd := Join(tokens, " ");
  }

  method PushDrives(tokens: seq<string>, vm: PhpVm, diskExists: bool, isoExists: bool) returns (out: seq<string>)
    ensures out == tokens + DriveTokens(vm, diskExists, isoExists)
  {
    out := tokens;
    if !EmptyText(Some(vm.diskPath)) && diskExists {
      out := out + ["-drive file=" + EscapeShellArg(vm.diskPath) + ",if=virtio,format=" + vm.diskFormat];
    }
    if !EmptyText(vm.physicalDiskDevice) && vm.bootFromDisk {
      out := out + ["-drive file=" + vm.physicalDiskDevice.value + ",format=raw,if=virtio"];
    }
    if !EmptyText(vm.isoPath) && isoExists {
      out := out + ["-cdrom " + EscapeShellArg(vm.isoPath.value)];
    }
  }

  method PushDisplay(tokens: seq<string>, vm: PhpVm) returns (out: seq<string>)
    ensures out == tokens + DisplayTokens(vm)
  {
    out := tokens;
    if vm.displayType == "spice" {
      var port := if vm.spicePort.Some? then IntToString(vm.spicePort.value) else "";
      out := out + ["-spice port=" + port + ",addr=0.0.0.0,disable-ticketing"];
      out := out + ["-vga qxl"];
      out := out + ["-device virtio-serial"];
      out := out + ["-chardev spicevmc,id=vdagent,name=vdagent"];
      out := out + ["-device virtserialport,chardev=vdagent,name=com.redhat.spice.0"];
    } else if vm.displayType == "vnc" {
      out := out + ["-vnc :" + IntToString(Coalesce(vm.vncPort, 0) - 5900)];
    } else {
      out := out + ["-display none"];
    }
  }

  /** The command always starts with the binary and KVM, and always ends daemonized with a pid file. */
  lemma QemuTokensShape(vm: PhpVm, diskExists: bool, isoExists: bool)
    ensures var t := QemuTokens(vm, diskExists, isoExists);
      |t| >= 12 && t[0] == "qemu-system-x86_64" && t[1] == "-enable-kvm"
      && t[|t| - 2..] == ["-daemonize", "-pidfile /var/run/vm-" + vm.name + ".pid"]
      && (vm.displayType != "spice" && vm.displayType != "vnc" ==> t[|t| - 3] == "-display none")
  {
    var t := QemuTokens(vm, diskExists, isoExists);
    var front := Head(vm) + DriveTokens(vm, diskExists, isoExists) + ["-boot order=" + vm.bootOrder, NetworkConfig(vm)];
    assert t == front + DisplayTokens(vm) + Tail(vm);
    assert t[0] == front[0] && front[0] == Head(vm)[0];
    assert t[1] == front[1] && front[1] == Head(vm)[1];
  }

  // ------------------------------------------------------------------ SPICE file

  function PortText(p: Option<int>): string {
    if p.Some? then IntToString(p.value) else ""
  }

  function SpiceLines(vm: PhpVm): seq<string> {
    ["[virt-viewer]", "type=spice", "host=localhost", "port=" + PortText(vm.spicePort),
     "password=" + vm.spicePassword, "title=" + vm.name, "delete-this-file=1", "fullscreen=0"]
  }

  /**
   * generateSpiceFile: None for a missing VM, an error for a non-SPICE
   * display, otherwise the [virt-viewer] block, one setting per line.
   */
  function SpiceFile(row: Option<PhpVm>): (r: Option<Result<string>>)
    ensures row.None? <==> r.None?
    ensures row.Some? && row.value.displayType != "spice" ==> r == Some(Err("VM does not use SPICE display"))
    ensures row.Some? && row.value.displayType == "spice" ==> r.value.Ok?
  {
    if row.None? then None
    else if row.value.displayType != "spice" then Some(Err("VM does not use SPICE display"))
    else Some(Ok(Join(SpiceLines(row.value), "\n") + "\n"))
  }

  /**
   * Reading the file back line by line recovers exactly the eight settings,
   * provided the stored password and name hold no line break.
   */
  lemma {:induction false} SpiceFileLines(vm: PhpVm)
    requires vm.displayType == "spice" && '\n' !in vm.spicePassword && '\n' !in vm.name
    ensures Split(SpiceFile(Some(vm)).value.value, '\n') == SpiceLines(vm) + [""]
  {
    var lines := SpiceLines(vm);
    assert forall i :: 0 <= i < |lines| ==> '\n' !in lines[i] by {
      PortTextNoBreak(vm.spicePort);
    }
    LinesSplit(lines);
  }

  lemma PortTextNoBreak(p: Option<int>)
    ensures '\n' !in PortText(p)
  {
    if p.Some? {
      var s := IntToString(p.value);
      if p.value >= 0 {
        assert forall i :: 0 <= i < |s| ==> IsDigit(s[i]);
      } else {
        var digits := NatToString(-p.value);
        assert s == "-" + digits;
        assert forall i :: 0 <= i < |digits| ==> IsDigit(digits[i]);
      }
    }
  }

  /** Lines free of breaks, each terminated by a break, split back into the lines and a final empty part. */
  lemma {:induction false} LinesSplit(lines: seq<string>)
    requires |lines| >= 1 && forall i :: 0 <= i < |lines| ==> '\n' !in lines[i]
    ensures Split(Join(lines, "\n") + "\n", '\n') == lines + [""]
  {
    if |lines| == 1 {
      assert Join(lines, "\n") + "\n" == lines[0] + ['\n'] + "";
      SplitFirstPart(lines[0], '\n', "");
    } else {
      var rest := lines[1..];
      LinesSplit(rest);
      assert Join(lines, "\n") + "\n" == lines[0] + ['\n'] + (Join(rest, "\n") + "\n");
      SplitFirstPart(lines[0], '\n', Join(rest, "\n") + "\n");
      assert lines == [lines[0]] + rest;
    }
  }

  // ------------------------------------------------------------------ update

  const PhpUpdatableFields: seq<string> := [
    "name", "description", "cpu_cores", "ram_mb", "boot_order", "iso_path", "boot_from_disk",
    "physical_disk_device", "network_mode", "network_bridge", "display_type"]

  /** The SET assignments update issues: each listed field that isset in the data, in list order. */
  function Assignments(data: map<string, Scalar>, fields: seq<string>): (r: seq<(string, Scalar)>)
    ensures |r| <= |fields|
  {
    if fields == [] then []
    else
      var head := if fields[0] in data && data[fields[0]] != Null then [(fields[0], data[fields[0]])] else [];
      head + Assignments(data, fields[1..])
  }

  /** An assignment is made for a field iff it is listed and set (present and not null), with the given value. */
  lemma {:induction false} AssignmentsExact(data: map<string, Scalar>, fields: seq<string>)
    ensures forall a :: a in Assignments(data, fields) ==>
              a.0 in fields && a.0 in data && data[a.0] != Null && a.1 == data[a.0]
    ensures forall f :: f in fields && f in data && data[f] != Null ==> (f, data[f]) in Assignments(data, fields)
  {
    if fields != [] {
      AssignmentsExact(data, fields[1..]);
      var head := if fields[0] in data && data[fields[0]] != Null then [(fields[0], data[fields[0]])] else [];
      assert Assignments(data, fields) == head + Assignments(data, fields[1..]);
      forall f | f in fields && f in data && data[f] != Null
        ensures (f, data[f]) in Assignments(data, fields)
      {
        if f != fields[0] {
          assert f in fields[1..];
        }
      }
    }
  }

  /** The foreach over the allow-list collecting `field = ?` clauses. */
  method CollectAssignments(data: map<string, Scalar>) returns (updates: seq<(string, Scalar)>)
    ensures updates == Assignments(data, PhpUpdatableFields)
  {
    updates := CollectListed(data, PhpUpdatableFields);
  }

  /** The loop itself, over any list of field names. */
  method CollectListed(data: map<string, Scalar>, fields: seq<string>) returns (updates: seq<(string, Scalar)>)
    ensures updates == Assignments(data, fields)
  {
    updates := [];
    var i := 0;
    while i < |fields|
      invariant 0 <= i <= |fields|
      invariant updates + Assignments(data, fields[i..]) == Assignments(data, fields)
    {
      var field := fields[i];
      SliceCons(fields, i);
      ghost var rest := Assignments(data, fields[i + 1..]);
      if field in data && data[field] != Null {
        assert Assignments(data, fields[i..]) == [(field, data[field])] + rest;
        AppendAssoc(updates, [(field, data[field])], rest);
        updates := updates + [(field, data[field])];
      } else {
        assert Assignments(data, fields[i..]) == rest;
      }
      i := i + 1;
    }
  }

  // ------------------------------------------------------------------ the table

  /** The pid text the shell returned, accepted only when non-empty, not "0" and numeric. */
  function LaunchPid(output: string): (r: Option<int>)
    ensures r.Some? ==> PhpTrim(output) != "" && PhpTrim(output) != "0" && Atoi(PhpTrim(output)) == r
    ensures PhpTrim(output) != "" && PhpTrim(output) != "0" && Atoi(PhpTrim(output)).Some? ==> r == Atoi(PhpTrim(output))
  {
    var pid := PhpTrim(output);
    if pid == "" || pid == "0" then None else Atoi(pid)
  }

  /** PHP's empty() on the pid column: NULL and 0 are empty. */
  predicate EmptyPid(pid: Option<int>) {
    pid.None? || pid.value == 0
  }

  class PhpVmTable {
    var rows: map<int, PhpVm>
    var nextId: int

    ghost predicate Valid()
      reads this
    {
      forall id :: id in rows ==> id < nextId
    }

    constructor ()
      ensures Valid() && rows == map[]
    {
      rows := map[];
      nextId := 1;
    }

    /**
     * create: the disk path is always <vmDir>/<name>.qcow2; a non-empty disk
     * size creates the image first (a failure throws); the SPICE port is
     * the lowest free one in 5900..6000, and none free is an error.
     */
    method Create(req: CreateRequest, uuid: string, generatedMac: string, password: string,
                  diskCreated: bool, user: Option<int>)
      returns (r: Result<int>)
      requires Valid()
      modifies this
      ensures Valid()
      ensures req.diskSizeGb.Some? && req.diskSizeGb.value != 0 && !diskCreated ==>
                r == Err("Failed to create disk image") && rows == old(rows)
      ensures !(req.diskSizeGb.Some? && req.diskSizeGb.value != 0 && !diskCreated) ==>
                (r == Err("No available ports") <==> forall p :: 5900 <= p <= 6000 ==> p in UsedSpicePorts(old(rows)))
      ensures r.Err? ==> rows == old(rows)
      ensures r.Ok? ==>
                r.value !in old(rows) && r.value in rows && rows[r.value].spicePort.Some?
                && var port := rows[r.value].spicePort.value;
                   5900 <= port <= 6000 && port !in UsedSpicePorts(old(rows))
                   && (forall p :: 5900 <= p < port ==> p in UsedSpicePorts(old(rows)))
                   && rows == old(rows)[r.value := NewRow(req, uuid, generatedMac, password, user, port)]
    {
      var diskPath := VmDir + "/" + req.name + ".qcow2";
      if req.diskSizeGb.Some? && req.diskSizeGb.value != 0 && !diskCreated {
        return Err("Failed to create disk image");
      }
      var port := AllocatePort(UsedSpicePorts(rows), 5900, 6000);
      if port.Err? {
        return Err(port.error);
      }
      var row := NewRow(req, uuid, generatedMac, password, user, port.value);
      var id := nextId;
      rows := rows[id := row];
      nextId := nextId + 1;
      r := Ok(id);
    }

    /**
     * update: false for a missing VM, an error while it runs, otherwise
     * true, with the SET clauses for the listed fields that are set.
     */
    method Update(id: int, data: map<string, Scalar>) returns (r: Result<bool>, updates: seq<(string, Scalar)>)
      ensures id !in rows ==> r == Ok(false) && updates == []
      ensures id in rows && rows[id].status == "running" ==>
                r == Err("Cannot update VM while it is running") && updates == []
      ensures id in rows && rows[id].status != "running" ==>
                r == Ok(true) && updates == Assignments(data, PhpUpdatableFields)
    {
      if id !in rows {
        return Ok(false), [];
      }
      if rows[id].status == "running" {
        return Err("Cannot update VM while it is running"), [];
      }
      updates := CollectAssignments(data);
      r := Ok(true);
    }

    /**
     * stop: refuses unless the row is running with a non-empty pid; then
     * sends SIGKILL or SIGTERM and stores stopped with a NULL pid.
     */
    method Stop(id: int, force: bool) returns (r: Result<string>)
      modifies this`rows
      ensures id !in old(rows) ==> r == Err("VM not found") && rows == old(rows)
      ensures id in old(rows) && (old(rows)[id].status != "running" || EmptyPid(old(rows)[id].pid)) ==>
                r == Err("VM is not running") && rows == old(rows)
      ensures id in old(rows) && old(rows)[id].status == "running" && !EmptyPid(old(rows)[id].pid) ==>
                r == Ok(if force then "SIGKILL" else "SIGTERM")
                && rows == old(rows)[id := old(rows)[id].(status := "stopped", pid := None)]
    {
      if id !in rows {
        return Err("VM not found");
      }
      var vm := rows[id];
      if vm.status != "running" || EmptyPid(vm.pid) {
        return Err("VM is not running");
      }
      var signal := if force then "SIGKILL" else "SIGTERM";
      rows := rows[id := vm.(status := "stopped", pid := None)];
      r := Ok(signal);
    }

    /**
     * start: refuses a missing or running VM; a launch whose echoed pid is
     * empty or not numeric throws and leaves the row as it was.
     */
    method Start(id: int, diskExists: bool, isoExists: bool, launchOutput: string)
      returns (r: Result<bool>, launched: Option<string>)
      modifies this`rows
      ensures id !in old(rows) ==> r == Err("VM not found") && rows == old(rows) && launched == None
      ensures id in old(rows) && old(rows)[id].status == "running" ==>
                r == Err("VM is already running") && rows == old(rows) && launched == None
      ensures id in old(rows) && old(rows)[id].status != "running" ==>
                launched == Some(Join(QemuTokens(old(rows)[id], diskExists, isoExists), " "))
      ensures id in old(rows) && old(rows)[id].status != "running" && LaunchPid(launchOutput).None? ==>
                r == Err("Failed to start VM") && rows == old(rows)
      ensures id in old(rows) && old(rows)[id].status != "running" && LaunchPid(launchOutput).Some? ==>
                r == Ok(true)
                && rows == old(rows)[id := old(rows)[id].(status := "running", pid := LaunchPid(launchOutput))]
    {
      if id !in rows {
        return Err("VM not found"), None;
      }
      var vm := rows[id];
      if vm.status == "running" {
        return Err("VM is already running"), None;
      }
      var cmd := BuildQemuCommand(vm, diskExists, isoExists);
      launched := Some(cmd);
      var pid := LaunchPid(launchOutput);
      if pid.None? {
        return Err("Failed to start VM"), launched;
      }
      rows := rows[id := vm.(status := "running", pid := pid)];
      r := Ok(true);
    }

    /** restart: stop (which throws unless running with a pid), then start the stopped row. */
    method Restart(id: int, diskExists: bool, isoExists: bool, launchOutput: string)
      returns (r: Result<bool>)
      modifies this`rows
      ensures id !in old(rows) ==> r.Err? && rows == old(rows)
      ensures id in old(rows) && (old(rows)[id].status != "running" || EmptyPid(old(rows)[id].pid)) ==>
                r == Err("VM is not running") && rows == old(rows)
      ensures id in old(rows) && old(rows)[id].status == "running" && !EmptyPid(old(rows)[id].pid) ==>
                (LaunchPid(launchOutput).None? ==>
                   r == Err("Failed to start VM") && rows == old(rows)[id := old(rows)[id].(status := "stopped", pid := None)])
                && (LaunchPid(launchOutput).Some? ==>
                   r == Ok(true) && rows == old(rows)[id := old(rows)[id].(status := "running", pid := LaunchPid(launchOutput))])
    {
      var stopped := Stop(id, false);
      if stopped.Err? {
        return Err(stopped.error);
      }
      ghost var afterStop := rows;
      var launched;
      r, launched := Start(id, diskExists, isoExists, launchOutput);
      if r.Ok? {
        Vms.UpdateTwice(old(rows), id, old(rows)[id].(status := "stopped", pid := None),
                        old(rows)[id].(status := "running", pid := LaunchPid(launchOutput)));
      }
    }

    /**
     * getStatus: None for a missing VM; a running row with a pid whose
     * process is gone is stored and reported as stopped; otherwise the
     * stored status is reported unchanged.
     */
    method GetStatus(id: int, alive: bool) returns (status: Option<string>)
      modifies this`rows
      ensures id !in old(rows) ==> status == None && rows == old(rows)
      ensures id in old(rows) && old(rows)[id].status == "running" && !EmptyPid(old(rows)[id].pid) && !alive ==>
                status == Some("stopped") && rows == old(rows)[id := old(rows)[id].(status := "stopped", pid := None)]
      ensures id in old(rows) && !(old(rows)[id].status == "running" && !EmptyPid(old(rows)[id].pid) && !alive) ==>
                status == Some(old(rows)[id].status) && rows == old(rows)
    {
      if id !in rows {
        return None;
      }
      var vm := rows[id];
      if vm.status == "running" && !EmptyPid(vm.pid) && !alive {
        rows := rows[id := vm.(status := "stopped", pid := None)];
        return Some("stopped");
      }
      status := Some(vm.status);
    }

    /**
     * delete: false for a missing VM; a running VM is force-stopped first,
     * and when that throws (no pid) the row stays; otherwise the row goes.
     */
    method Delete(id: int) returns (r: Result<bool>)
      modifies this`rows
      ensures id !in old(rows) ==> r == Ok(false) && rows == old(rows)
      ensures id in old(rows) && old(rows)[id].status == "running" && EmptyPid(old(rows)[id].pid) ==>
                r == Err("VM is not running") && rows == old(rows)
      ensures id in old(rows) && !(old(rows)[id].status == "running" && EmptyPid(old(rows)[id].pid)) ==>
                r == Ok(true) && rows == old(rows) - {id}
    {
      if id !in rows {
        return Ok(false);
      }
      if rows[id].status == "running" {
        var stopped := Stop(id, true);
        if stopped.Err? {
          return Err(stopped.error);
        }
      }
      rows := rows - {id};
      r := Ok(true);
    }
  }
}
