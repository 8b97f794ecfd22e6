/**
 * The Go VM manager (go-backend/vms.go): QEMU command synthesis, port
 * allocation, generated identifiers, and the status/pid life cycle of rows
 * in the virtual_machines and vm_backups tables.
 *
 * External programs are oracles: `ovmfPresent` says whether the OVMF
 * firmware file exists, a `Launch` value is what the shell returned when
 * QEMU was started, `alive` is the outcome of `ps -p <pid>`, and the
 * background gzip/gunzip jobs report their outcome through separate calls.
 */
module Vms {
  import opened Text

  const VMDir := "/opt/serveros/vms"
  const VMLogDir := "/opt/serveros/logs/vms"
  const VMBackupDir := "/opt/serveros/vms/backups"
  const QMPSocketDir := "/opt/serveros/run/qmp"
  const OVMFPath := "/usr/share/OVMF/OVMF_CODE.fd"

  /** One row of virtual_machines, with the COALESCE defaults already applied by the SELECT. */
  datatype Vm = Vm(
    name: string, uuid: string, cpuCores: int, ramMb: int, cpuType: string,
    balloonEnabled: bool, hugepagesEnabled: bool,
    diskPath: string, diskSizeGb: int, diskFormat: string, cacheMode: string, discardEnabled: bool,
    bootOrder: string, isoPath: string, physicalDiskDevice: string,
    firmwareType: string, tpmEnabled: bool,
    networkMode: string, networkBridge: string, macAddress: string, networkModel: string,
    displayType: string, spicePort: int, vncPort: int, spicePassword: string, vncPassword: string,
    qmpSocketPath: string,
    status: string, pid: Option<int>, lastStartedAt: Option<int>)

  /** One row of vm_backups. */
  datatype Backup = Backup(
    vmId: int, vmName: string, backupName: string, backupPath: string, backupSize: Option<int>,
    compressed: bool, compressionType: string, status: string, notes: string, completedAt: Option<int>)

  /** What the shell returned for `nohup <qemu> > <log> 2>&1 & echo $!`. */
  datatype Launch = LaunchFailed | Launched(output: string)

  // ------------------------------------------------------------------ QEMU command

  function OrDefault(s: string, d: string): (r: string)
    ensures r == (if s == "" then d else s)
  {
    if s == "" then d else s
  }

  /** The fixed head: binary, KVM, machine, identity, CPU model, cores and memory. */
  function Prologue(vm: Vm): (r: seq<string>)
    ensures |r| == 14
    ensures r[..8] == ["qemu-system-x86_64", "-enable-kvm", "-machine", "type=q35,accel=kvm",
                       "-uuid", vm.uuid, "-name", vm.name]
    ensures r[8] == "-cpu" && (vm.cpuType == "" ==> r[9] == "host") && (vm.cpuType != "" ==> r[9] == vm.cpuType)
  {
    ["qemu-system-x86_64", "-enable-kvm", "-machine", "type=q35,accel=kvm",
     "-uuid", vm.uuid, "-name", vm.name,
     "-cpu", OrDefault(vm.cpuType, "host"),
     "-smp", "cores=" + IntToString(vm.cpuCores),
     "-m", IntToString(vm.ramMb)]
  }

  function MemoryArgs(vm: Vm): (r: seq<string>)
    ensures |r| == (if vm.balloonEnabled then 2 else 0) + (if vm.hugepagesEnabled then 3 else 0)
  {
    (if vm.balloonEnabled then ["-device", "virtio-balloon-pci,id=balloon0"] else [])
    + (if vm.hugepagesEnabled then ["-mem-path", "/dev/hugepages", "-mem-prealloc"] else [])
  }

  /** UEFI pflash drives, emitted only for firmware "uefi" when the OVMF code file exists. */
  function FirmwareArgs(vm: Vm, ovmfPresent: bool): (r: seq<string>)
    ensures r != [] <==> vm.firmwareType == "uefi" && ovmfPresent
    ensures r != [] ==> |r| == 4 && r[0] == "-drive" && r[2] == "-drive"
  {
    if vm.firmwareType == "uefi" && ovmfPresent then
      ["-drive", "if=pflash,format=raw,readonly=on,file=" + OVMFPath,
       "-drive", "if=pflash,format=raw,file=" + (VMDir + "/" + vm.name + "_VARS.fd")]
    else []
  }

  function TpmArgs(vm: Vm): (r: seq<string>)
    ensures r != [] <==> vm.tpmEnabled
  {
    if vm.tpmEnabled then
      ["-chardev", "socket,id=chrtpm,path=" + (QMPSocketDir + "/" + vm.uuid + "-tpm.sock"),
       "-tpmdev", "emulator,id=tpm0,chardev=chrtpm",
       "-device", "tpm-tis,tpmdev=tpm0"]
    else []
  }

  /** The disk drive option string; empty format and cache mode become qcow2 and writeback. */
  function DiskOptions(vm: Vm): (r: string)
    ensures HasPrefix(r, "file=" + vm.diskPath + ",if=virtio,format=")
    ensures vm.discardEnabled ==> HasSuffix(r, ",discard=unmap")
  {
    "file=" + vm.diskPath + ",if=virtio,format=" + OrDefault(vm.diskFormat, "qcow2")
    + ",cache=" + OrDefault(vm.cacheMode, "writeback")
    + (if vm.discardEnabled then ",discard=unmap" else "")
  }

  function DiskArgs(vm: Vm): (r: seq<string>)
    ensures r != [] <==> vm.diskPath != ""
  {
    if vm.diskPath != "" then ["-drive", DiskOptions(vm)] else []
  }

  /** A host block device passed through as a raw virtio drive. */
  function PassthroughArgs(vm: Vm): (r: seq<string>)
    ensures r != [] <==> vm.physicalDiskDevice != ""
  {
    if vm.physicalDiskDevice != "" then ["-drive", "file=" + vm.physicalDiskDevice + ",if=virtio,format=raw"] else []
  }

  function CdromArgs(vm: Vm): (r: seq<string>)
    ensures r != [] <==> vm.isoPath != ""
  {
    if vm.isoPath != "" then ["-cdrom", vm.isoPath] else []
  }

  function BootArgs(vm: Vm): (r: seq<string>)
    ensures |r| == 2 && r[0] == "-boot"
    ensures vm.bootOrder == "" ==> r[1] == "order=cd,hd"
  {
    ["-boot", "order=" + OrDefault(vm.bootOrder, "cd,hd")]
  }

  /** Go's name[:min(10, len(name))]: at most the first ten characters. */
  function TapName(name: string): (r: string)
    ensures HasPrefix(r, "tap_") && |r| <= 14
    ensures |name| <= 10 ==> r == "tap_" + name
  {
    "tap_" + name[..Min(10, |name|)]
  }

  function NicDevice(vm: Vm): (r: string)
    ensures HasSuffix(r, ",mac=" + vm.macAddress)
  {
    vm.networkModel + "-net-pci,netdev=net0,mac=" + vm.macAddress
  }

  /** Network back end and NIC; only nat, user and bridge-with-a-name emit anything. */
  function NetworkArgs(vm: Vm): (r: seq<string>)
    ensures r == [] <==> !(vm.networkMode == "nat" || vm.networkMode == "user"
                           || (vm.networkMode == "bridge" && vm.networkBridge != ""))
    ensures r != [] ==> |r| == 4 && r[0] == "-netdev" && r[2] == "-device" && r[3] == NicDevice(vm)
    ensures vm.networkMode == "nat" ==> r[1] == "user,id=net0"
    ensures vm.networkMode == "user" ==> r[1] == "user,id=net0,hostfwd=tcp::2222-:22"
    ensures vm.networkMode == "bridge" && r != [] ==>
              r[1] == "tap,id=net0,ifname=" + TapName(vm.name) + ",script=no,downscript=no"
  {
    match vm.networkMode
    case "nat" => ["-netdev", "user,id=net0", "-device", NicDevice(vm)]
    case "bridge" =>
      if vm.networkBridge != "" then
        ["-netdev", "tap,id=net0,ifname=" + TapName(vm.name) + ",script=no,downscript=no",
         "-device", NicDevice(vm)]
      else []
    case "user" => ["-netdev", "user,id=net0,hostfwd=tcp::2222-:22", "-device", NicDevice(vm)]
    case _ => []
  }

  /** VNC display number for the vnc display type: port - 5900, clamped at 0. */
  function VncDisplay(port: int): (d: int)
    ensures d >= 0
    ensures port >= 5900 ==> d + 5900 == port
    ensures port < 5900 ==> d == 0
  {
    if port - 5900 < 0 then 0 else port - 5900
  }

  /** The -vnc option: the clamped display, and password=on when a VNC password is set. */
  function VncOptions(port: int, password: string): (r: string)
    ensures HasPrefix(r, "0.0.0.0:" + IntToString(VncDisplay(port)))
    ensures password != "" <==> HasSuffix(r, ",password=on")
  {
    var display := NatToString(VncDisplay(port));
    var base := "0.0.0.0:" + display;
    if password != "" then base + ",password=on"
    else
      assert base[|base| - 1] == display[|display| - 1];
      assert IsDigit(base[|base| - 1]);
      base
  }

  const SpiceAgentArgs: seq<string> :=
    ["-device", "virtio-serial-pci", "-chardev", "spicevmc,id=vdagent,name=vdagent",
     "-device", "virtserialport,chardev=vdagent,name=com.redhat.spice.0"]

  function DisplayArgs(vm: Vm): (r: seq<string>)
    ensures vm.displayType == "none" <==> r == ["-nographic"]
    ensures vm.displayType == "spice" ==>
              |r| == 10 && r[0] == "-spice" && r[2..4] == ["-vga", "qxl"] && r[4..] == SpiceAgentArgs
              && HasPrefix(r[1], "port=" + IntToString(vm.spicePort) + ",addr=0.0.0.0")
              && (vm.spicePassword != "" ==> HasSuffix(r[1], ",password=" + vm.spicePassword))
              && (vm.spicePassword == "" ==> HasSuffix(r[1], ",disable-ticketing=on"))
    ensures vm.displayType == "vnc" ==>
              |r| == 4 && r[0] == "-vnc" && r[2..] == ["-vga", "std"]
              && HasPrefix(r[1], "0.0.0.0:" + IntToString(VncDisplay(vm.vncPort)))
              && (vm.vncPassword != "" <==> HasSuffix(r[1], ",password=on"))
    ensures vm.displayType !in {"spice", "vnc", "none"} ==>
              r == ["-spice", "port=" + IntToString(vm.spicePort) + ",addr=0.0.0.0,disable-ticketing=on",
                    "-vga", "qxl", "-vnc", "0.0.0.0:" + IntToString(vm.vncPort - 5900)]
  {
    match vm.displayType
    case "spice" =>
      var opts := "port=" + IntToString(vm.spicePort) + ",addr=0.0.0.0"
        + (if vm.spicePassword != "" then ",password=" + vm.spicePassword else ",disable-ticketing=on");
      ["-spice", opts, "-vga", "qxl"] + SpiceAgentArgs
    case "vnc" =>
      ["-vnc", VncOptions(vm.vncPort, vm.vncPassword), "-vga", "std"]
    case "none" => ["-nographic"]
    case _ =>
      ["-spice", "port=" + IntToString(vm.spicePort) + ",addr=0.0.0.0,disable-ticketing=on",
       "-vga", "qxl", "-vnc", "0.0.0.0:" + IntToString(vm.vncPort - 5900)]
  }

  function QmpArgs(vm: Vm): (r: seq<string>)
    ensures r != [] <==> vm.qmpSocketPath != ""
  {
    if vm.qmpSocketPath != "" then ["-qmp", "unix:" + vm.qmpSocketPath + ",server,nowait"] else []
  }

  const Epilogue: seq<string> := ["-usb", "-device", "usb-tablet", "-daemonize"]

  /** The argument list in the order buildQEMUCommand appends it. */
  function QemuArgs(vm: Vm, ovmfPresent: bool): seq<string> {
    Prologue(vm) + MemoryArgs(vm) + FirmwareArgs(vm, ovmfPresent) + TpmArgs(vm) + DiskArgs(vm)
    + PassthroughArgs(vm) + CdromArgs(vm)
    + BootArgs(vm) + NetworkArgs(vm) + DisplayArgs(vm) + QmpArgs(vm) + Epilogue
  }

  /** buildQEMUCommand: grows the argument list append by append, in the order QemuArgs lists the groups. */
  method BuildQemuCommand(vm: Vm, ovmfPresent: bool) returns (cmd: seq<string>)
    ensures cmd == QemuArgs(vm, ovmfPresent)
  {
    cmd := ["qemu-system-x86_64", "-enable-kvm", "-machine", "type=q35,accel=kvm",
            "-uuid", vm.uuid, "-name", vm.name];
    var cpuType := vm.cpuType;
    if cpuType == "" {
      cpuType := "host";
    }
    cmd := cmd + ["-cpu", cpuType];
    cmd := cmd + ["-smp", "cores=" + IntToString(vm.cpuCores)];
    cmd := cmd + ["-m", IntToString(vm.ramMb)];
    assert cmd == Prologue(vm);
    cmd := AppendMemory(cmd, vm);
    cmd := AppendFirmware(cmd, vm, ovmfPresent);
    cmd := AppendTpm(cmd, vm);
    cmd := AppendDisk(cmd, vm);
    cmd := AppendMedia(cmd, vm);
    cmd := cmd + NetworkArgs(vm);
    cmd := cmd + DisplayArgs(vm);
    cmd := AppendEpilogue(cmd, vm);
  }

  /** Pass-through device, ISO image and boot order. */
  method AppendMedia(cmd: seq<string>, vm: Vm) returns (out: seq<string>)
    ensures out == cmd + PassthroughArgs(vm) + CdromArgs(vm) + BootArgs(vm)
  {
    out := cmd;
    if vm.physicalDiskDevice != "" {
      out := out + ["-drive", "file=" + vm.physicalDiskDevice + ",if=virtio,format=raw"];
    }
    if vm.isoPath != "" {
      out := out + ["-cdrom", vm.isoPath];
    }
    var bootOrder := vm.bootOrder;
    if bootOrder == "" {
      bootOrder := "cd,hd";
    }
    out := out + ["-boot", "order=" + bootOrder];
  }

  method AppendMemory(cmd: seq<string>, vm: Vm) returns (out: seq<string>)
    ensures out == cmd + MemoryArgs(vm)
  {
    out := cmd;
    if vm.balloonEnabled {
      out := out + ["-device", "virtio-balloon-pci,id=balloon0"];
    }
    if vm.hugepagesEnabled {
      out := out + ["-mem-path", "/dev/hugepages"];
      out := out + ["-mem-prealloc"];
    }
  }

  method AppendFirmware(cmd: seq<string>, vm: Vm, ovmfPresent: bool) returns (out: seq<string>)
    ensures out == cmd + FirmwareArgs(vm, ovmfPresent)
  {
    out := cmd;
    if vm.firmwareType == "uefi" && ovmfPresent {
      var varsPath := VMDir + "/" + vm.name + "_VARS.fd";
      out := out + ["-drive", "if=pflash,format=raw,readonly=on,file=" + OVMFPath];
      out := out + ["-drive", "if=pflash,format=raw,file=" + varsPath];
    }
  }

  method AppendTpm(cmd: seq<string>, vm: Vm) returns (out: seq<string>)
    ensures out == cmd + TpmArgs(vm)
  {
    out := cmd;
    if vm.tpmEnabled {
      var tpmSocketPath := QMPSocketDir + "/" + vm.uuid + "-tpm.sock";
      out := out + ["-chardev", "socket,id=chrtpm,path=" + tpmSocketPath];
      out := out + ["-tpmdev", "emulator,id=tpm0,chardev=chrtpm"];
      out := out + ["-device", "tpm-tis,tpmdev=tpm0"];
    }
  }

  method AppendDisk(cmd: seq<string>, vm: Vm) returns (out: seq<string>)
    ensures out == cmd + DiskArgs(vm)
  {
    out := cmd;
    if vm.diskPath != "" {
      var diskFormat := vm.diskFormat;
      if diskFormat == "" {
        diskFormat := "qcow2";
      }
      var cacheMode := vm.cacheMode;
      if cacheMode == "" {
        cacheMode := "writeback";
      }
      var diskOpts := "file=" + vm.diskPath + ",if=virtio,format=" + diskFormat + ",cache=" + cacheMode;
      if vm.discardEnabled {
        diskOpts := diskOpts + ",discard=unmap";
      }
      assert diskOpts == DiskOptions(vm);
      out := out + ["-drive", diskOpts];
    }
  }

  method AppendEpilogue(cmd: seq<string>, vm: Vm) returns (out: seq<string>)
    ensures out == cmd + QmpArgs(vm) + Epilogue
  {
    out := cmd;
    if vm.qmpSocketPath != "" {
      out := out + ["-qmp", "unix:" + vm.qmpSocketPath + ",server,nowait"];
    }
    out := out + ["-usb"];
    out := out + ["-device", "usb-tablet"];
    out := out + ["-daemonize"];
  }

  /** Every command starts with the binary, KVM, q35 and the VM's identity, and ends daemonized with a USB tablet. */
  lemma QemuArgsShape(vm: Vm, ovmfPresent: bool)
    ensures var cmd := QemuArgs(vm, ovmfPresent);
      |cmd| >= 20
      && cmd[..8] == ["qemu-system-x86_64", "-enable-kvm", "-machine", "type=q35,accel=kvm",
                      "-uuid", vm.uuid, "-name", vm.name]
      && cmd[|cmd| - 4..] == ["-usb", "-device", "usb-tablet", "-daemonize"]
  {
    var cmd := QemuArgs(vm, ovmfPresent);
    var head := Prologue(vm) + MemoryArgs(vm) + FirmwareArgs(vm, ovmfPresent) + TpmArgs(vm) + DiskArgs(vm)
    + PassthroughArgs(vm) + CdromArgs(vm)
      + BootArgs(vm) + NetworkArgs(vm) + DisplayArgs(vm) + QmpArgs(vm);
    assert cmd == head + Epilogue;
    assert Prologue(vm) <= head;
    assert cmd[..8] == Prologue(vm)[..8];
  }

  /** The single shell word string buildQEMUCommand returns. */
  function QemuCommandLine(vm: Vm, ovmfPresent: bool): string {
    Join(QemuArgs(vm, ovmfPresent), " ")
  }

  /** Exactly one of the four display branches contributes `-nographic`, `-vnc` only, `-spice` only, or both. */
  lemma DisplayBranchesExclusive(vm: Vm)
    ensures var r := DisplayArgs(vm);
      (r[0] == "-nographic" <==> vm.displayType == "none")
      && (r[0] == "-vnc" <==> vm.displayType == "vnc")
      && (r[0] == "-spice" <==> vm.displayType != "none" && vm.displayType != "vnc")
      && ("-vnc" in r <==> vm.displayType != "none" && vm.displayType != "spice")
  {
    var r := DisplayArgs(vm);
    if vm.displayType == "spice" {
      assert r == ["-spice", r[1], "-vga", "qxl"] + SpiceAgentArgs;
    }
  }

  // ------------------------------------------------------------------ port allocation

  function PortRangeStart(portType: string): (start: int)
    ensures start == 5900 || start == 5950
    ensures start == 5950 <==> portType == "vnc"
  {
    if portType == "vnc" then 5950 else 5900
  }

  /** The ports of the matching column over every row of the table. */
  function UsedPorts(vms: map<int, Vm>, portType: string): set<int> {
    set id | id in vms :: if portType == "vnc" then vms[id].vncPort else vms[id].spicePort
  }

  predicate HasFreePort(used: set<int>, start: int) {
    exists p :: start <= p <= start + 100 && p !in used
  }

  /**
   * The port allocatePort settles on: the first of start..start+100 not in
   * use, or start when all 101 are taken.
   */
  predicate Allocation(used: set<int>, portType: string, port: int) {
    var start := PortRangeStart(portType);
    start <= port <= start + 100
    && (HasFreePort(used, start) ==> port !in used && forall p :: start <= p < port ==> p in used)
    && (!HasFreePort(used, start) ==> port == start)
  }

  /** At most one port is the allocation for a given set of used ports. */
  lemma AllocationUnique(used: set<int>, portType: string, a: int, b: int)
    requires Allocation(used, portType, a) && Allocation(used, portType, b)
    ensures a == b
  {
  }

  /**
   * allocatePort: scans start..start+100 and returns the first port no row
   * uses in the matching column; when all 101 are taken it returns start.
   */
  method AllocatePort(used: set<int>, portType: string) returns (port: int)
    ensures Allocation(used, portType, port)
    ensures var start := PortRangeStart(portType);
      start <= port <= start + 100
      && (HasFreePort(used, start) ==> port !in used && forall p :: start <= p < port ==> p in used)
      && (!HasFreePort(used, start) ==> port == start)
  {
    var start := PortRangeStart(portType);
    var candidate := start;
    while candidate <= start + 100
      invariant start <= candidate <= start + 101
      invariant forall p :: start <= p < candidate ==> p in used
    {
      if candidate !in used {
        return candidate;
      }
      candidate := candidate + 1;
    }
    port := start;
  }

  // ------------------------------------------------------------------ generated values

  const PasswordAlphabet := "abcdefghijklmnopqrstuvwxyzABCDEFGHIJKLMNOPQRSTUVWXYZ0123456789"

  /**
   * generatePassword: fills a 12-byte buffer from the 62-character alphabet;
   * `picks` are the random indexes drawn for each position.
   */
  method GeneratePassword(picks: seq<nat>) returns (password: string)
    requires |picks| == 12 && forall i :: 0 <= i < 12 ==> picks[i] < |PasswordAlphabet|
    ensures |password| == 12
    ensures forall i :: 0 <= i < 12 ==> password[i] == PasswordAlphabet[picks[i]]
    ensures forall i :: 0 <= i < 12 ==> password[i] in PasswordAlphabet
  {
    var buffer := new char[12];
    var i := 0;
    while i < 12
      invariant 0 <= i <= 12
      invariant forall j :: 0 <= j < i ==> buffer[j] == PasswordAlphabet[picks[j]]
    {
      buffer[i] := PasswordAlphabet[picks[i]];
      i := i + 1;
    }
    password := buffer[..];
  }

  /**
   * generateMACAddress: the QEMU/KVM OUI followed by three random bytes
   * (Go draws each below 0xff, PHP up to 0xff inclusive).
   */
  function MacAddress(b0: nat, b1: nat, b2: nat): (mac: string)
    requires b0 < 256 && b1 < 256 && b2 < 256
    ensures |mac| == 17 && HasPrefix(mac, "52:54:00:")
    ensures mac[11] == ':' && mac[14] == ':'
  {
    HexWidth(b0, 2);
    HexWidth(b1, 2);
    HexWidth(b2, 2);
    "52:54:00:" + HexPad(b0, 2) + ":" + HexPad(b1, 2) + ":" + HexPad(b2, 2)
  }

  /**
   * generateUUID: eight random 16-bit groups printed with %04x, the fourth
   * carrying version 4 (a draw below 0x1000 OR-ed with 0x4000, written here
   * as the equal sum) and the fifth the RFC 4122 variant (a draw below
   * 0x4000 OR-ed with 0x8000).
   */
  function Uuid(r: seq<nat>): (u: string)
    requires |r| == 8 && r[3] < 0x1000 && r[4] < 0x4000
    requires forall i :: 0 <= i < 8 ==> r[i] < 0x10000
    ensures |u| == 36
    ensures u[8] == '-' && u[13] == '-' && u[18] == '-' && u[23] == '-'
    ensures u[14] == '4' && u[19] in "89ab"
  {
    var version := r[3] + 0x4000;
    var variant := r[4] + 0x8000;
    HexWidth(r[0], 4); HexWidth(r[1], 4); HexWidth(r[2], 4);
    HexWidth(r[5], 4); HexWidth(r[6], 4); HexWidth(r[7], 4);
    DashedGroups(HexPad(r[0], 4) + HexPad(r[1], 4), HexPad(r[2], 4), VersionHex(version),
                 VariantHex(variant), HexPad(r[5], 4) + HexPad(r[6], 4) + HexPad(r[7], 4))
  }

  /** The version group printed with %04x: four digits led by the version, 4. */
  function VersionHex(n: nat): (h: string)
    requires 0x4000 <= n < 0x5000
    ensures |h| == 4 && h[0] == '4'
  {
    HexFourDigits(n);
    HexPad(n, 4)
  }

  /** The variant group printed with %04x: four digits led by 8, 9, a or b. */
  function VariantHex(n: nat): (h: string)
    requires 0x8000 <= n < 0xc000
    ensures |h| == 4 && h[0] in "89ab"
  {
    HexFourDigits(n);
    HexPad(n, 4)
  }

  /** The 8-4-4-4-12 layout of a UUID. */
  function DashedGroups(a: string, b: string, c: string, d: string, e: string): (u: string)
    requires |a| == 8 && |b| == 4 && |c| == 4 && |d| == 4 && |e| == 12
    ensures |u| == 36
    ensures u[8] == '-' && u[13] == '-' && u[18] == '-' && u[23] == '-'
    ensures u[14] == c[0] && u[19] == d[0]
  {
    a + "-" + b + "-" + c + "-" + d + "-" + e
  }

  // ------------------------------------------------------------------ update

  const VmUpdatableColumns: set<string> := {
    "name", "description", "cpu_cores", "ram_mb", "cpu_type", "cpu_pinning", "numa_topology",
    "balloon_enabled", "hugepages_enabled", "cache_mode", "discard_enabled",
    "boot_order", "iso_path", "boot_from_disk", "physical_disk_device", "firmware_type",
    "secure_boot", "tpm_enabled", "network_mode", "network_bridge", "network_model",
    "vlan_id", "bandwidth_limit_down", "bandwidth_limit_up", "display_type", "autostart",
    "autostart_delay", "tags", "os_type", "os_version"}

  /** What UpdateVMHandler decides to do with a request body. */
  datatype UpdatePlan =
    | InvalidRequest
    | VmNotFound
    | RefusedWhileRunning
    | NothingToWrite
    | WriteColumns(columns: map<string, Scalar>)

  /**
   * `request` is the decoded JSON object (None when decoding failed) and
   * `status` the stored status of the VM (None when there is no such row).
   */
  function PlanVmUpdate(request: Option<map<string, Scalar>>, status: Option<string>): (plan: UpdatePlan)
    ensures request == None <==> plan == InvalidRequest
    ensures request != None && status == None <==> plan == VmNotFound
    ensures request != None && status == Some("running") <==> plan == RefusedWhileRunning
    ensures plan.WriteColumns? ==>
              plan.columns.Keys == request.value.Keys * VmUpdatableColumns && plan.columns.Keys != {}
              && forall k :: k in plan.columns ==> plan.columns[k] == request.value[k]
    ensures plan == NothingToWrite <==>
              request != None && status.Some? && status.value != "running"
              && request.value.Keys * VmUpdatableColumns == {}
  {
    if request.None? then InvalidRequest
    else if status.None? then VmNotFound
    else if status.value == "running" then RefusedWhileRunning
    else
      var columns := map k | k in request.value && k in VmUpdatableColumns :: request.value[k];
      if columns.Keys == {} then NothingToWrite else WriteColumns(columns)
  }

  // ------------------------------------------------------------------ the tables

  /** The pid a successful launch reports: Atoi of the trimmed shell output, 0 when it does not parse. */
  function LaunchedPid(output: string): (pid: int)
    ensures IsDecimal(GoTrim(output)) ==> pid == DigitsValue(GoTrim(output))
    ensures Atoi(GoTrim(output)).None? ==> pid == 0
  {
    match Atoi(GoTrim(output))
    case Some(p) => p
    case None => 0
  }

  /**
   * The row CreateVMHandler inserts: every empty text field gets its
   * default, a port of 0 gets the allocated one, and the VM starts stopped.
   */
  function WithCreateDefaults(req: Vm, uuid: string, mac: string, spicePassword: string, vncPassword: string,
                              spicePort: int, vncPort: int): (row: Vm)
    ensures row.uuid == uuid && row.status == "stopped" && row.pid == None && row.lastStartedAt == None
    ensures row.qmpSocketPath == QMPSocketDir + "/" + uuid + ".sock"
    ensures row.macAddress == (if req.macAddress == "" then mac else req.macAddress)
    ensures row.diskPath == (if req.diskPath == "" then VMDir + "/" + req.name + ".qcow2" else req.diskPath)
    ensures row.diskFormat == (if req.diskFormat == "" then "qcow2" else req.diskFormat)
    ensures row.cpuType == (if req.cpuType == "" then "host" else req.cpuType)
    ensures row.networkModel == (if req.networkModel == "" then "virtio" else req.networkModel)
    ensures row.cacheMode == (if req.cacheMode == "" then "writeback" else req.cacheMode)
    ensures row.firmwareType == (if req.firmwareType == "" then "bios" else req.firmwareType)
    ensures row.spicePassword == (if req.spicePassword == "" then spicePassword else req.spicePassword)
    ensures row.vncPassword == (if req.vncPassword == "" then vncPassword else req.vncPassword)
    ensures req.spicePort != 0 ==> row.spicePort == req.spicePort
    ensures req.vncPort != 0 ==> row.vncPort == req.vncPort
    ensures row.(uuid := req.uuid, status := req.status, pid := req.pid, lastStartedAt := req.lastStartedAt,
                 qmpSocketPath := req.qmpSocketPath,
                 macAddress := req.macAddress, diskPath := req.diskPath, diskFormat := req.diskFormat,
                 cpuType := req.cpuType, networkModel := req.networkModel, cacheMode := req.cacheMode,
                 firmwareType := req.firmwareType, spicePassword := req.spicePassword,
                 vncPassword := req.vncPassword, spicePort := req.spicePort, vncPort := req.vncPort) == req
  {
    req.(uuid := uuid,
         macAddress := OrDefault(req.macAddress, mac),
         diskPath := OrDefault(req.diskPath, VMDir + "/" + req.name + ".qcow2"),
         diskFormat := OrDefault(req.diskFormat, "qcow2"),
         cpuType := OrDefault(req.cpuType, "host"),
         networkModel := OrDefault(req.networkModel, "virtio"),
         cacheMode := OrDefault(req.cacheMode, "writeback"),
         firmwareType := OrDefault(req.firmwareType, "bios"),
         spicePort := if req.spicePort == 0 then spicePort else req.spicePort,
         vncPort := if req.vncPort == 0 then vncPort else req.vncPort,
         spicePassword := OrDefault(req.spicePassword, spicePassword),
         vncPassword := OrDefault(req.vncPassword, vncPassword),
         qmpSocketPath := QMPSocketDir + "/" + uuid + ".sock",
         status := "stopped", pid := None, lastStartedAt := None)
  }

  /** A row after stopVM. */
  function Stopped(vm: Vm): (r: Vm)
    ensures r.status == "stopped" && r.pid == None
    ensures r.(status := vm.status, pid := vm.pid) == vm
  {
    vm.(status := "stopped", pid := None)
  }

  /** A row after a successful launch at time `now`. */
  function Running(vm: Vm, pid: int, now: int): (r: Vm)
    ensures r.status == "running" && r.pid == Some(pid) && r.lastStartedAt == Some(now)
    ensures r.(status := vm.status, pid := vm.pid, lastStartedAt := vm.lastStartedAt) == vm
  {
    vm.(status := "running", pid := Some(pid), lastStartedAt := Some(now))
  }

  /**
   * The row after RestartVMHandler: running with the new pid when the launch
   * succeeded; otherwise stopped if it had been running, else untouched.
   */
  function AfterRestart(vm: Vm, launch: Launch, now: int): (r: Vm)
    ensures launch.Launched? ==> r.status == "running" && r.pid == Some(LaunchedPid(launch.output))
    ensures launch.LaunchFailed? && vm.status == "running" ==> r.status == "stopped" && r.pid == None
    ensures launch.LaunchFailed? && vm.status != "running" ==> r == vm
  {
    if launch.Launched? then Running(vm, LaunchedPid(launch.output), now)
    else if vm.status == "running" then Stopped(vm)
    else vm
  }

  function BackupName(vmName: string, stamp: string): (name: string)
    ensures HasPrefix(name, vmName + "_") && name[|vmName| + 1..] == stamp
  {
    vmName + "_" + stamp
  }

  /** The file a compressed backup is written to. */
  function BackupPath(vmName: string, stamp: string): (path: string)
    ensures HasPrefix(path, VMBackupDir + "/") && HasSuffix(path, ".qcow2.gz")
  {
    VMBackupDir + "/" + BackupName(vmName, stamp) + ".qcow2.gz"
  }

  lemma UpdateTwice<K, V>(m: map<K, V>, k: K, first: V, second: V)
    ensures m[k := first][k := second] == m[k := second]
  {
  }

  class VmDatabase {
    var vms: map<int, Vm>
    var backups: map<int, Backup>
    var nextVmId: int
    var nextBackupId: int

    ghost predicate Valid()
      reads this
    {
      (forall id :: id in vms ==> id < nextVmId)
      && (forall id :: id in backups ==> id < nextBackupId)
    }

    constructor ()
      ensures Valid() && vms == map[] && backups == map[]
    {
      vms := map[];
      backups := map[];
      nextVmId := 1;
      nextBackupId := 1;
    }

    /**
     * CreateVMHandler: fills in defaults, allocates each port left at 0 from
     * the table and inserts a stopped row under a fresh id.
     */
    method Create(req: Vm, uuid: string, mac: string, spicePassword: string, vncPassword: string)
      returns (id: int)
      requires Valid()
      modifies this
      ensures Valid() && backups == old(backups)
      ensures id !in old(vms) && id in vms && vms == old(vms)[id := vms[id]]
      ensures vms[id] == WithCreateDefaults(req, uuid, mac, spicePassword, vncPassword, vms[id].spicePort, vms[id].vncPort)
      ensures req.spicePort == 0 ==> Allocation(UsedPorts(old(vms), "spice"), "spice", vms[id].spicePort)
      ensures req.vncPort == 0 ==> Allocation(UsedPorts(old(vms), "vnc"), "vnc", vms[id].vncPort)
    {
      var spicePort := req.spicePort;
      if spicePort == 0 {
        spicePort := AllocatePort(UsedPorts(vms, "spice"), "spice");
      }
      var vncPort := req.vncPort;
      if vncPort == 0 {
        vncPort := AllocatePort(UsedPorts(vms, "vnc"), "vnc");
      }
      var vm := WithCreateDefaults(req, uuid, mac, spicePassword, vncPassword, spicePort, vncPort);
      id := nextVmId;
      vms := vms[id := vm];
      nextVmId := nextVmId + 1;
    }

    /**
     * stopVM: signals the recorded pid, if any (SIGKILL when forced, SIGTERM
     * otherwise), then marks the row stopped with no pid. Returns the signal sent.
     */
    method StopVm(id: int, force: bool) returns (signal: Option<string>)
      modifies this`vms
      ensures id in old(vms) ==> vms == old(vms)[id := Stopped(old(vms)[id])]
      ensures id !in old(vms) ==> vms == old(vms)
      ensures signal.Some? <==> id in old(vms) && old(vms)[id].pid.Some?
      ensures signal.Some? ==> signal.value == (if force then "SIGKILL" else "SIGTERM")
    {
      signal := None;
      if id in vms {
        if vms[id].pid.Some? {
          signal := Some(if force then "SIGKILL" else "SIGTERM");
        }
        vms := vms[id := Stopped(vms[id])];
      }
    }

    /**
     * StartVMHandler: a missing row is 404 and a running one 400, both before
     * anything is launched; a failed launch is 500 and changes nothing;
     * otherwise the row becomes running with the reported pid.
     */
    method Start(id: int, ovmfPresent: bool, launch: Launch, now: int)
      returns (reply: Reply, launched: Option<string>)
      modifies this`vms
      ensures id !in old(vms) ==> reply.code == 404 && launched == None && vms == old(vms)
      ensures id in old(vms) && old(vms)[id].status == "running" ==>
                reply == Reply(400, "VM is already running") && launched == None && vms == old(vms)
      ensures id in old(vms) && old(vms)[id].status != "running" ==>
                launched == Some(QemuCommandLine(old(vms)[id], ovmfPresent))
      ensures id in old(vms) && old(vms)[id].status != "running" && launch.LaunchFailed? ==>
                reply.code == 500 && vms == old(vms)
      ensures id in old(vms) && old(vms)[id].status != "running" && launch.Launched? ==>
                reply == OK
                && vms == old(vms)[id := Running(old(vms)[id], LaunchedPid(launch.output), now)]
    {
      launched := None;
      if id !in vms {
        return Reply(404, "VM not found"), None;
      }
      var vm := vms[id];
      if vm.status == "running" {
        return Reply(400, "VM is already running"), None;
      }
      var args := BuildQemuCommand(vm, ovmfPresent);
      launched := Some(Join(args, " "));
      if launch.LaunchFailed? {
        return Reply(500, "Failed to start VM"), launched;
      }
      var pid := LaunchedPid(launch.output);
      vms := vms[id := Running(vm, pid, now)];
      reply := OK;
    }

    /**
     * RestartVMHandler: stops a running VM gently, then launches the command
     * built from the row as it was read; a failed launch leaves the VM stopped.
     */
    method Restart(id: int, ovmfPresent: bool, launch: Launch, now: int)
      returns (reply: Reply, signal: Option<string>, launched: Option<string>)
      modifies this`vms
      ensures id !in old(vms) ==> reply.code == 404 && vms == old(vms) && launched == None && signal == None
      ensures id in old(vms) ==> launched == Some(QemuCommandLine(old(vms)[id], ovmfPresent))
      ensures id in old(vms) && old(vms)[id].status != "running" ==> signal == None
      ensures id in old(vms) && old(vms)[id].status == "running" && old(vms)[id].pid.Some? ==> signal == Some("SIGTERM")
      ensures id in old(vms) ==>
                reply == (if launch.Launched? then OK else Reply(500, "Failed to restart VM"))
                && vms == old(vms)[id := AfterRestart(old(vms)[id], launch, now)]
    {
      signal, launched := None, None;
      if id !in vms {
        return Reply(404, "VM not found"), None, None;
      }
      var vm := vms[id];
      ghost var updated := vm;
      if vm.status == "running" {
        signal := StopVm(id, false);
        updated := Stopped(vm);
      } else {
        assert vms == old(vms)[id := vm];
      }
      assert vms == old(vms)[id := updated];
      var args := BuildQemuCommand(vm, ovmfPresent);
      launched := Some(Join(args, " "));
      if launch.LaunchFailed? {
        return Reply(500, "Failed to restart VM"), signal, launched;
      }
      var pid := LaunchedPid(launch.output);
      UpdateTwice(old(vms), id, updated, Running(vm, pid, now));
      vms := vms[id := Running(vm, pid, now)];
      reply := OK;
    }

    /**
     * GetVMStatusHandler: a running row with a pid whose `ps` check fails is
     * repaired to stopped/NULL and reported as stopped; otherwise the stored
     * status is reported and nothing changes.
     */
    method Status(id: int, alive: bool) returns (reply: Reply, status: Option<string>)
      modifies this`vms
      ensures id !in old(vms) ==> reply.code == 404 && status == None && vms == old(vms)
      ensures id in old(vms) && old(vms)[id].status == "running" && old(vms)[id].pid.Some? && !alive ==>
                reply == OK && status == Some("stopped")
                && vms == old(vms)[id := Stopped(old(vms)[id])]
      ensures id in old(vms) && !(old(vms)[id].status == "running" && old(vms)[id].pid.Some? && !alive) ==>
                reply == OK && status == Some(old(vms)[id].status) && vms == old(vms)
    {
      if id !in vms {
        return Reply(404, "VM not found"), None;
      }
      var current := vms[id].status;
      if current == "running" && vms[id].pid.Some? {
        if !alive {
          vms := vms[id := Stopped(vms[id])];
          current := "stopped";
        }
      }
      reply, status := OK, Some(current);
    }

    /** DeleteVMHandler: force-stops a running VM, then removes the row. */
    method Delete(id: int) returns (reply: Reply, signal: Option<string>)
      modifies this`vms
      ensures id !in old(vms) ==> reply.code == 404 && vms == old(vms) && signal == None
      ensures id in old(vms) ==> reply == OK && vms == old(vms) - {id}
      ensures signal.Some? <==> id in old(vms) && old(vms)[id].status == "running" && old(vms)[id].pid.Some?
      ensures signal.Some? ==> signal.value == "SIGKILL"
    {
      signal := None;
      if id !in vms {
        return Reply(404, "VM not found"), None;
      }
      if vms[id].status == "running" {
        signal := StopVm(id, true);
      }
      vms := vms - {id};
      reply := OK;
    }

    /**
     * CreateVMBackupHandler: records a compressed backup in state "creating";
     * the gzip job later finishes it through FinishBackup.
     */
    method CreateBackup(vmId: int, stamp: string, notes: string) returns (reply: Reply, backupId: Option<int>)
      requires Valid()
      modifies this`backups, this`nextBackupId
      ensures Valid()
      ensures vmId !in vms ==> reply.code == 404 && backupId == None && backups == old(backups)
      ensures vmId in vms ==>
                reply == OK && backupId.Some? && backupId.value !in old(backups)
                && backups == old(backups)[backupId.value := Backup(vmId, vms[vmId].name,
                     BackupName(vms[vmId].name, stamp), BackupPath(vms[vmId].name, stamp),
                     None, true, "gzip", "creating", notes, None)]
    {
      if vmId !in vms {
        return Reply(404, "VM not found"), None;
      }
      var name := BackupName(vms[vmId].name, stamp);
      var path := BackupPath(vms[vmId].name, stamp);
      var id := nextBackupId;
      backups := backups[id := Backup(vmId, vms[vmId].name, name, path, None, true, "gzip", "creating", notes, None)];
      nextBackupId := nextBackupId + 1;
      reply, backupId := OK, Some(id);
    }

    /** The backup goroutine's end: failed on a gzip error, else completed with the file size (0 if unknown). */
    method FinishBackup(backupId: int, gzipOk: bool, fileSize: Option<int>, now: int)
      modifies this`backups
      ensures backupId !in old(backups) ==> backups == old(backups)
      ensures backupId in old(backups) && !gzipOk ==>
                backups == old(backups)[backupId := old(backups)[backupId].(status := "failed")]
      ensures backupId in old(backups) && gzipOk ==>
                backups == old(backups)[backupId := old(backups)[backupId].(status := "completed",
                  backupSize := Some(if fileSize.Some? then fileSize.value else 0), completedAt := Some(now))]
    {
      if backupId in backups {
        if !gzipOk {
          backups := backups[backupId := backups[backupId].(status := "failed")];
        } else {
          var size := if fileSize.Some? then fileSize.value else 0;
          backups := backups[backupId := backups[backupId].(status := "completed", backupSize := Some(size),
                                                          completedAt := Some(now))];
        }
      }
    }

    /** CheckBackupStatusHandler: the stored status and size (0 when NULL). */
    method BackupStatus(backupId: int) returns (reply: Reply, status: string, size: int)
      ensures backupId !in backups ==> reply.code == 404
      ensures backupId in backups ==>
                reply == OK && status == backups[backupId].status
                && size == (if backups[backupId].backupSize.Some? then backups[backupId].backupSize.value else 0)
    {
      if backupId !in backups {
        return Reply(404, "Backup not found"), "", 0;
      }
      var b := backups[backupId];
      reply, status := OK, b.status;
      size := if b.backupSize.Some? then b.backupSize.value else 0;
    }

    /**
     * RestoreBackupHandler: refused while the owning VM runs; otherwise the
     * backup moves to "restoring" and the returned command is what the job runs.
     */
    method RestoreBackup(backupId: int) returns (reply: Reply, job: Option<seq<string>>)
      modifies this`backups
      ensures backupId !in old(backups) ==> reply.code == 404 && backups == old(backups) && job == None
      ensures backupId in old(backups) && old(backups)[backupId].vmId !in vms ==>
                reply.code == 404 && backups == old(backups) && job == None
      ensures backupId in old(backups) && old(backups)[backupId].vmId in vms
              && vms[old(backups)[backupId].vmId].status == "running" ==>
                reply == Reply(400, "Cannot restore while VM is running") && backups == old(backups) && job == None
      ensures backupId in old(backups) && old(backups)[backupId].vmId in vms
              && vms[old(backups)[backupId].vmId].status != "running" ==>
                reply == OK && backups == old(backups)[backupId := old(backups)[backupId].(status := "restoring")]
                && job.Some?
                && job.value == (if old(backups)[backupId].compressed
                                 then ["gunzip", "-c", old(backups)[backupId].backupPath, ">", vms[old(backups)[backupId].vmId].diskPath]
                                 else ["cp", old(backups)[backupId].backupPath, vms[old(backups)[backupId].vmId].diskPath])
    {
      if backupId !in backups {
        return Reply(404, "Backup not found"), None;
      }
      var backup := backups[backupId];
      if backup.vmId !in vms {
        return Reply(404, "VM not found"), None;
      }
      var diskPath := vms[backup.vmId].diskPath;
      if vms[backup.vmId].status == "running" {
        return Reply(400, "Cannot restore while VM is running"), None;
      }
      backups := backups[backupId := backup.(status := "restoring")];
      if backup.compressed {
        job := Some(["gunzip", "-c", backup.backupPath, ">", diskPath]);
      } else {
        job := Some(["cp", backup.backupPath, diskPath]);
      }
      reply := OK;
    }

    /** The restore goroutine's end: failed or completed. */
    method FinishRestore(backupId: int, ok: bool)
      modifies this`backups
      ensures backupId !in old(backups) ==> backups == old(backups)
      ensures backupId in old(backups) ==>
                backups == old(backups)[backupId := old(backups)[backupId].(status := if ok then "completed" else "failed")]
    {
      if backupId in backups {
        backups := backups[backupId := backups[backupId].(status := if ok then "completed" else "failed")];
      }
    }

    /** DeleteBackupHandler: removes the file (not modelled) and the row. */
    method DeleteBackup(backupId: int) returns (reply: Reply)
      modifies this`backups
      ensures backupId !in old(backups) ==> reply.code == 404 && backups == old(backups)
      ensures backupId in old(backups) ==> reply == OK && backups == old(backups) - {backupId}
    {
      if backupId !in backups {
        return Reply(404, "Backup not found");
      }
      backups := backups - {backupId};
      reply := OK;
    }
  }

  /**
   * The status/pid life cycle as a whole: after a successful Start the row
   * is running with a pid, and StopVm always brings it back to stopped/NULL.
   */
  method StartThenStop(id: int, vm: Vm, launchOutput: string, force: bool, now: int)
    returns (runningPid: Option<int>, after: Vm)
    requires vm.status != "running"
    ensures runningPid == Some(LaunchedPid(launchOutput))
    ensures after.status == "stopped" && after.pid == None && after.lastStartedAt == Some(now)
    ensures after == Stopped(Running(vm, LaunchedPid(launchOutput), now))
  {
    var db := new VmDatabase();
    db.vms := map[id := vm];
    var reply, launched := db.Start(id, false, Launched(launchOutput), now);
    runningPid := db.vms[id].pid;
    var signal := db.StopVm(id, force);
    after := db.vms[id];
  }
}
