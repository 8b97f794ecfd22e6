/**
 * VM snapshots (go-backend/vmsnapshots.go): the create/restore/delete
 * dispatch between qemu-img (stopped VM) and QMP over socat (running VM),
 * the status of rows in vm_snapshots, and the parser for
 * `qemu-img snapshot -l`.
 *
 * Every external program is an oracle: an `Exec` value is what the program
 * reported (its failure, if any, and its combined output).
 */
module VmSnapshots {
  import opened Text
  import Vms

  /** Outcome of one external command: the error Go saw, if any, and the output. */
  datatype Exec = Exec(failure: Option<string>, output: string)

  /** One row of vm_snapshots. */
  datatype Snapshot = Snapshot(
    vmId: int, name: string, description: string, snapshotType: string,
    status: string, sizeBytes: int, createdBy: Option<int>, completedAt: Option<int>)

  /** A program the handler runs: qemu-img with its arguments, or a bash script feeding socat. */
  datatype ToolCall = QemuImg(args: seq<string>) | Bash(script: string)

  // ------------------------------------------------------------------ defaults

  /** The request after the defaults: an empty name becomes snapshot_<stamp>, an empty type "disk". */
  function WithDefaults(name: string, snapshotType: string, stamp: string): (r: (string, string))
    ensures r.0 == (if name == "" then "snapshot_" + stamp else name)
    ensures r.1 == (if snapshotType == "" then "disk" else snapshotType)
    ensures r.0 != "" && r.1 != ""
  {
    (if name == "" then "snapshot_" + stamp else name,
     if snapshotType == "" then "disk" else snapshotType)
  }

  // ------------------------------------------------------------------ qemu-img

  /** `qemu-img snapshot <flag> <name> <disk>`; -c creates, -a applies, -d deletes. */
  function QemuImgSnapshot(flag: string, name: string, diskPath: string): (r: ToolCall)
    ensures r.QemuImg? && |r.args| == 5 && r.args[..3] == ["qemu-img", "snapshot", flag]
    ensures r.args[3] == name && r.args[4] == diskPath
  {
    QemuImg(["qemu-img", "snapshot", flag, name, diskPath])
  }

  // ------------------------------------------------------------------ QMP

  const QmpCapabilities := "{\"execute\": \"qmp_capabilities\"}"
  const QmpErrorMarker := "\"error\""
  const NoSocket := "QMP socket not configured"

  function SaveCommand(name: string): string {
    "{\"execute\": \"snapshot-save\", \"arguments\": {\"job-id\": \"snap-" + name + "\", \"tag\": \""
    + name + "\", \"vmstate\": \"vmstate0\", \"devices\": [\"drive0\"]}}"
  }

  function LoadCommand(name: string): string {
    "{\"execute\": \"snapshot-load\", \"arguments\": {\"job-id\": \"load-" + name + "\", \"tag\": \""
    + name + "\", \"vmstate\": \"vmstate0\", \"devices\": [\"drive0\"]}}"
  }

  function DeleteCommand(name: string): string {
    "{\"execute\": \"snapshot-delete\", \"arguments\": {\"job-id\": \"del-" + name + "\", \"tag\": \""
    + name + "\", \"devices\": [\"drive0\"]}}"
  }

  /**
   * sendQMPCommand's script: the capabilities handshake, a newline escape,
   * then the command, piped into socat on the socket.
   */
  function SocatScript(socketPath: string, command: string): (r: string)
    ensures HasPrefix(r, "echo -e '" + QmpCapabilities + "\\n" + command + "'")
    ensures HasSuffix(r, "UNIX-CONNECT:" + socketPath)
  {
    var head := "echo -e '" + QmpCapabilities + "\\n" + command + "'";
    var r := head + " | socat - UNIX-CONNECT:" + socketPath;
    assert r == head + (" | socat - " + ("UNIX-CONNECT:" + socketPath));
    r
  }

  /**
   * The QMP helpers: an empty socket path is an error and runs nothing;
   * otherwise the socat script is the one program run.
   */
  function QmpCall(socketPath: string, command: string): (r: Result<ToolCall>)
    ensures r.Err? <==> socketPath == ""
    ensures r.Err? ==> r.error == NoSocket
    ensures r.Ok? ==> r.value == Bash(SocatScript(socketPath, command))
  {
    if socketPath == "" then Err(NoSocket) else Ok(Bash(SocatScript(socketPath, command)))
  }

  /** sendQMPCommand's verdict on what socat reported. */
  function QmpVerdict(run: Exec): (r: Option<string>)
    ensures r == None <==> run.failure == None && !Contains(run.output, QmpErrorMarker)
    ensures run.failure.Some? ==> r == Some("QMP command failed: " + run.failure.value + " - " + run.output)
  {
    if run.failure.Some? then Some("QMP command failed: " + run.failure.value + " - " + run.output)
    else if Contains(run.output, QmpErrorMarker) then Some("QMP error: " + run.output)
    else None
  }

  /** A QMP helper end to end: the program it runs (if any) and the error it returns (if any). */
  function QmpHelper(socketPath: string, command: string, run: Exec): (r: (Option<ToolCall>, Option<string>))
    ensures socketPath == "" ==> r == (None, Some(NoSocket))
    ensures socketPath != "" ==> r.0 == Some(Bash(SocatScript(socketPath, command))) && r.1 == QmpVerdict(run)
  {
    match QmpCall(socketPath, command)
    case Err(e) => (None, Some(e))
    case Ok(call) => (Some(call), QmpVerdict(run))
  }

  /** A qemu-img helper end to end: the program always runs; its failure is the error. */
  function QemuImgHelper(flag: string, name: string, diskPath: string, run: Exec): (r: (Option<ToolCall>, Option<string>))
    ensures r.0 == Some(QemuImgSnapshot(flag, name, diskPath)) && r.1 == run.failure
  {
    (Some(QemuImgSnapshot(flag, name, diskPath)), run.failure)
  }

  // ------------------------------------------------------------------ create job

  /** What the handlers need of a virtual_machines row: whether it runs, its QMP socket and its disk. */
  datatype Target = Target(running: bool, qmpSocketPath: string, diskPath: string)

  function TargetOf(vm: Vms.Vm): (t: Target)
    ensures t.running <==> vm.status == "running"
    ensures t.qmpSocketPath == vm.qmpSocketPath && t.diskPath == vm.diskPath
  {
    Target(vm.status == "running", vm.qmpSocketPath, vm.diskPath)
  }

  /** The three ways the handlers treat a snapshot type. */
  datatype Kind = DiskOnly | WithMemory | OtherKind

  /** "disk" is disk-only, "memory" and "full" include the VM state, anything else is neither. */
  function KindOf(snapshotType: string): (k: Kind)
    ensures k == DiskOnly <==> snapshotType == "disk"
    ensures k == WithMemory <==> snapshotType == "memory" || snapshotType == "full"
  {
    if snapshotType == "disk" then DiskOnly
    else if snapshotType == "memory" || snapshotType == "full" then WithMemory
    else OtherKind
  }

  /** What the background job of CreateVMSnapshotHandler did: the program it ran and the final row status. */
  datatype JobResult = JobResult(call: Option<ToolCall>, failed: bool, sizeBytes: int)

  /**
   * The background job. A disk-only snapshot goes through QMP on a running
   * VM and qemu-img otherwise; one with memory needs a running VM and
   * otherwise fails at once; any other type runs nothing and completes. The
   * size is the disk image's size, 0 when it cannot be read.
   */
  function CreateJob(kind: Kind, vm: Target, name: string, run: Exec, diskSize: Option<int>)
    : (r: JobResult)
    ensures !r.failed ==> r.sizeBytes == (if diskSize.Some? then diskSize.value else 0)
    ensures kind == DiskOnly && !vm.running ==>
              r.call == Some(QemuImgSnapshot("-c", name, vm.diskPath))
              && (r.failed <==> run.failure.Some?)
    ensures kind == WithMemory && !vm.running ==> r.call == None && r.failed
    ensures kind != OtherKind && vm.running ==>
              (vm.qmpSocketPath == "" ==> r.call == None && r.failed)
              && (vm.qmpSocketPath != "" ==>
                    r.call == Some(Bash(SocatScript(vm.qmpSocketPath, SaveCommand(name))))
                    && (r.failed <==> QmpVerdict(run).Some?))
    ensures kind == OtherKind ==> r.call == None && !r.failed
  {
    var size := if diskSize.Some? then diskSize.value else 0;
    var outcome :=
      match kind
      case DiskOnly =>
        if vm.running then QmpHelper(vm.qmpSocketPath, SaveCommand(name), run)
        else QemuImgHelper("-c", name, vm.diskPath, run)
      case WithMemory =>
        if !vm.running then (None, Some("VM is not running"))
        else QmpHelper(vm.qmpSocketPath, SaveCommand(name), run)
      case OtherKind => (None, None);
    if outcome.1.Some? then JobResult(outcome.0, true, 0) else JobResult(outcome.0, false, size)
  }

  // ------------------------------------------------------------------ restore

  /**
   * RestoreVMSnapshotHandler once the VM and the snapshot are found: a
   * running VM restores snapshots with memory over QMP and refuses anything
   * else with 400; a stopped VM applies the snapshot with qemu-img whatever
   * its type.
   */
  function RestoreDispatch(vm: Target, snap: Snapshot, run: Exec): (r: (Reply, Option<ToolCall>))
    ensures vm.running && KindOf(snap.snapshotType) != WithMemory ==>
              r.0.code == 400 && r.1 == None
    ensures vm.running && KindOf(snap.snapshotType) == WithMemory ==>
              r.1 == QmpHelper(vm.qmpSocketPath, LoadCommand(snap.name), run).0
              && (r.0 == OK <==> QmpHelper(vm.qmpSocketPath, LoadCommand(snap.name), run).1 == None)
    ensures !vm.running ==>
              r.1 == Some(QemuImgSnapshot("-a", snap.name, vm.diskPath)) && (r.0 == OK <==> run.failure == None)
    ensures r.0 == OK || r.0.code == 400 || r.0.code == 500
  {
    if vm.running then
      if KindOf(snap.snapshotType) == WithMemory then
        var (call, err) := QmpHelper(vm.qmpSocketPath, LoadCommand(snap.name), run);
        if err.Some? then (Reply(500, "Failed to restore snapshot: " + err.value), call) else (OK, call)
      else (Reply(400, "Cannot restore disk-only snapshot while VM is running. Stop the VM first."), None)
    else
      var (call, err) := QemuImgHelper("-a", snap.name, vm.diskPath, run);
      if err.Some? then (Reply(500, "Failed to restore snapshot: " + err.value), call) else (OK, call)
  }

  /** DeleteVMSnapshotHandler's program: QMP when running, qemu-img otherwise; its outcome is ignored. */
  function DeleteCall(vm: Target, name: string): (r: Option<ToolCall>)
    ensures !vm.running ==> r == Some(QemuImgSnapshot("-d", name, vm.diskPath))
    ensures vm.running ==> (r == None <==> vm.qmpSocketPath == "")
    ensures vm.running && r.Some? ==> r.value == Bash(SocatScript(vm.qmpSocketPath, DeleteCommand(name)))
  {
    if vm.running then QmpHelper(vm.qmpSocketPath, DeleteCommand(name), Exec(None, "")).0
    else Some(QemuImgSnapshot("-d", name, vm.diskPath))
  }

  // ------------------------------------------------------------------ qemu-img snapshot -l

  /** One entry of listQemuSnapshots. */
  datatype QemuSnapshot = QemuSnapshot(id: string, tag: string, vmSize: string, date: string, vmClock: string)

  /** Every field of an entry is filled in, except the clock, which is always empty. */
  predicate Complete(e: QemuSnapshot) {
    e.id != "" && e.tag != "" && e.vmSize != "" && e.date != "" && e.vmClock == ""
  }

  /** The entry a listing line yields: one when it is non-empty and has at least four fields. */
  function LineEntry(line: string): (r: seq<QemuSnapshot>)
    ensures |r| <= 1
    ensures |r| == 1 <==> line != "" && |Fields(line)| >= 4
    ensures |r| == 1 ==> r[0] == QemuSnapshot(Fields(line)[0], Fields(line)[1], Fields(line)[2], Fields(line)[3], "")
    ensures |r| == 1 ==> Complete(r[0])
  {
    var f := Fields(line);
    if line != "" && |f| >= 4 then
      assert f[0] != [] && f[1] != [] && f[2] != [] && f[3] != [];
      [QemuSnapshot(f[0], f[1], f[2], f[3], "")]
    else []
  }

  /** The entries of a run of listing lines, in order. */
  function Entries(lines: seq<string>): (r: seq<QemuSnapshot>)
    ensures |r| <= |lines|
  {
    if lines == [] then []
    else Entries(lines[..|lines| - 1]) + LineEntry(lines[|lines| - 1])
  }

  /** Every entry the parser yields is complete. */
  lemma {:induction false} EntriesComplete(lines: seq<string>)
    ensures forall k :: 0 <= k < |Entries(lines)| ==> Complete(Entries(lines)[k])
  {
    if lines != [] {
      EntriesComplete(lines[..|lines| - 1]);
    }
  }

  lemma EntriesSnoc(lines: seq<string>, line: string)
    ensures Entries(lines + [line]) == Entries(lines) + LineEntry(line)
  {
    assert (lines + [line])[..|lines|] == lines;
  }

  /** The listing without its two header lines. */
  function Body(lines: seq<string>): (r: seq<string>)
    ensures |lines| >= 2 ==> r == lines[2..]
    ensures |lines| < 2 ==> r == []
  {
    if |lines| < 2 then [] else lines[2..]
  }

  /** The loop body of listQemuSnapshots for one line after the header. */
  method ParseLine(line: string) returns (entry: seq<QemuSnapshot>)
    ensures entry == LineEntry(line)
  {
    entry := [];
    if line != "" {
      var fields := Fields(line);
      if |fields| >= 4 {
        entry := [QemuSnapshot(fields[0], fields[1], fields[2], fields[3], "")];
      }
    }
  }

  /**
   * listQemuSnapshots: nothing for an empty path or a failed qemu-img; else
   * the entries of every line after the first two.
   */
  method ListQemuSnapshots(diskPath: string, run: Exec) returns (snapshots: seq<QemuSnapshot>)
    ensures diskPath == "" || run.failure.Some? ==> snapshots == []
    ensures diskPath != "" && run.failure == None ==> snapshots == Entries(Body(Split(run.output, '\n')))
  {
    snapshots := [];
    if diskPath == "" || run.failure.Some? {
      return;
    }
    snapshots := ScanListing(Split(run.output, '\n'));
  }

  /** The loop of listQemuSnapshots: skips the first two lines, parses the rest in order. */
  method ScanListing(lines: seq<string>) returns (snapshots: seq<QemuSnapshot>)
    ensures snapshots == Entries(Body(lines))
  {
    snapshots := [];
    var i := 0;
    while i < |lines|
      invariant 0 <= i <= |lines|
      invariant i <= 2 ==> snapshots == []
      invariant i >= 2 ==> snapshots == Entries(lines[2..i])
    {
      var line := lines[i];
      if i >= 2 {
        var entry := ParseLine(line);
        SliceSnoc(lines, 2, i);
        EntriesSnoc(lines[2..i], line);
        snapshots := snapshots + entry;
      }
      i := i + 1;
    }
    if |lines| >= 2 {
      assert lines[2..i] == Body(lines);
    }
  }

  // ------------------------------------------------------------------ the vm_snapshots table

  class SnapshotTable {
    var snapshots: map<int, Snapshot>
    var nextId: int

    ghost predicate Valid()
      reads this
    {
      nextId >= 1 && forall id :: id in snapshots ==> id < nextId
    }

    constructor ()
      ensures Valid() && snapshots == map[]
    {
      snapshots := map[];
      nextId := 1;
    }

    /**
     * CreateVMSnapshotHandler's synchronous part: a body that does not
     * decode is 400, a missing VM 404; otherwise a "creating" row is
     * inserted with the defaulted name and type, and its id returned.
     */
    method Create(vmId: int, vm: Option<Vms.Vm>, body: Option<(string, string, string)>, stamp: string,
                  user: Option<int>)
      returns (reply: Reply, snapshotId: Option<int>)
      requires Valid()
      modifies this
      ensures Valid()
      ensures body == None ==> reply.code == 400 && snapshotId == None && snapshots == old(snapshots)
      ensures body.Some? && vm == None ==> reply.code == 404 && snapshotId == None && snapshots == old(snapshots)
      ensures body.Some? && vm.Some? ==>
                reply == OK && snapshotId.Some? && snapshotId.value !in old(snapshots)
                && snapshots == old(snapshots)[snapshotId.value := Snapshot(
                     vmId, WithDefaults(body.value.0, body.value.2, stamp).0, body.value.1,
                     WithDefaults(body.value.0, body.value.2, stamp).1, "creating", 0, user, None)]
    {
      if body == None {
        return Reply(400, "Invalid request"), None;
      }
      var (name, snapshotType) := WithDefaults(body.value.0, body.value.2, stamp);
      if vm == None {
        return Reply(404, "VM not found"), None;
      }
      var id := nextId;
      snapshots := snapshots[id := Snapshot(vmId, name, body.value.1, snapshotType, "creating", 0, user, None)];
      nextId := nextId + 1;
      reply, snapshotId := OK, Some(id);
    }

    /** The background job's last write: status failed, or completed with the size and time. */
    method FinishCreate(id: int, job: JobResult, now: int)
      modifies this`snapshots
      ensures id !in old(snapshots) ==> snapshots == old(snapshots)
      ensures id in old(snapshots) && job.failed ==>
                snapshots == old(snapshots)[id := old(snapshots)[id].(status := "failed")]
      ensures id in old(snapshots) && !job.failed ==>
                snapshots == old(snapshots)[id := old(snapshots)[id].(status := "completed",
                                                 sizeBytes := job.sizeBytes, completedAt := Some(now))]
    {
      if id in snapshots {
        var s := snapshots[id];
        if job.failed {
          snapshots := snapshots[id := s.(status := "failed")];
        } else {
          snapshots := snapshots[id := s.(status := "completed", sizeBytes := job.sizeBytes, completedAt := Some(now))];
        }
      }
    }

    /**
     * RestoreVMSnapshotHandler: 404 for a missing VM, or a snapshot that is
     * missing or belongs to another VM; otherwise the dispatch above. The
     * table is never written.
     */
    method Restore(vmId: int, snapshotId: int, vm: Option<Vms.Vm>, run: Exec)
      returns (reply: Reply, call: Option<ToolCall>)
      ensures vm == None ==> reply == Reply(404, "VM not found") && call == None
      ensures vm.Some? && !(snapshotId in snapshots && snapshots[snapshotId].vmId == vmId) ==>
                reply == Reply(404, "Snapshot not found") && call == None
      ensures vm.Some? && snapshotId in snapshots && snapshots[snapshotId].vmId == vmId ==>
                (reply, call) == RestoreDispatch(TargetOf(vm.value), snapshots[snapshotId], run)
    {
      if vm == None {
        return Reply(404, "VM not found"), None;
      }
      if !(snapshotId in snapshots && snapshots[snapshotId].vmId == vmId) {
        return Reply(404, "Snapshot not found"), None;
      }
      reply, call := RestoreDispatch(TargetOf(vm.value), snapshots[snapshotId], run).0,
                     RestoreDispatch(TargetOf(vm.value), snapshots[snapshotId], run).1;
    }

    /**
     * DeleteVMSnapshotHandler: after the two 404 checks, runs the delete
     * program and removes the row whatever the program reported.
     */
    method Delete(vmId: int, snapshotId: int, vm: Option<Vms.Vm>)
      returns (reply: Reply, call: Option<ToolCall>)
      modifies this`snapshots
      ensures vm == None ==> reply.code == 404 && call == None && snapshots == old(snapshots)
      ensures vm.Some? && !(snapshotId in old(snapshots) && old(snapshots)[snapshotId].vmId == vmId) ==>
                reply.code == 404 && call == None && snapshots == old(snapshots)
      ensures vm.Some? && snapshotId in old(snapshots) && old(snapshots)[snapshotId].vmId == vmId ==>
                reply == OK && call == DeleteCall(TargetOf(vm.value), old(snapshots)[snapshotId].name)
                && snapshots == old(snapshots) - {snapshotId}
    {
      if vm == None {
        return Reply(404, "VM not found"), None;
      }
      if !(snapshotId in snapshots && snapshots[snapshotId].vmId == vmId) {
        return Reply(404, "Snapshot not found"), None;
      }
      call := DeleteCall(TargetOf(vm.value), snapshots[snapshotId].name);
      snapshots := snapshots - {snapshotId};
      reply := OK;
    }
  }
}
