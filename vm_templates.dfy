/**
 * VM templates (go-backend/vmtemplates.go): saving a stopped VM as a
 * template, instantiating a template as a new VM (request overrides, the
 * disk plan, the ISO choice and the new row), and the cloud-init text the
 * instantiation writes: placeholder substitution in a user-data template,
 * the generated default user-data, the meta-data and the genisoimage call.
 *
 * External programs (qemu-img, cp, openssl, genisoimage, cloud-localds) and
 * the file system are oracles: a `Tools` value says what each of them did.
 * Generated identifiers (UUID, MAC, passwords) arrive as a `Generated` value.
 */
module VmTemplates {
  import opened Text
  import opened Vms

  const TemplateDir := "/opt/serveros/vms/templates"

  /** One row of vm_templates, with the COALESCE('') defaults of the SELECT applied. */
  datatype Template = Template(
    name: string, description: string, cpuCores: int, ramMb: int, cpuType: string,
    diskSizeGb: int, diskFormat: string, networkMode: string, displayType: string, firmwareType: string,
    diskPath: string, diskSizeActual: int,
    cloudInitEnabled: bool, userData: string, metaData: string, networkConfig: string,
    downloadCount: int, createdBy: Option<int>)

  /** The body of POST /vm-templates/{id}/create. */
  datatype InstanceRequest = InstanceRequest(
    name: string, description: string, cpuCores: int, ramMb: int, diskSizeGb: int, isoPath: string,
    hostname: string, username: string, password: string, sshKeys: string)

  /** The body of POST /vms/{id}/save-as-template. */
  datatype SaveRequest = SaveRequest(name: string, description: string, includeDisk: bool)

  /** Random values the handler draws. */
  datatype Generated = Generated(uuid: string, mac: string, spicePassword: string, vncPassword: string)

  /**
   * What the external programs did: whether the qcow2 overlay failed,
   * openssl's output (None when it failed), whether genisoimage failed,
   * and whether the ISO file exists afterwards.
   */
  datatype Tools = Tools(overlayFailed: bool, passwordHash: Option<string>, genisoFailed: bool, isoExists: bool)

  /** A command the handler runs. */
  datatype Cmd = Run(argv: seq<string>)

  // ------------------------------------------------------------------ overrides

  /** A request value replaces the template's only when it is positive. */
  function Override(requested: int, templateValue: int): (v: int)
    ensures requested > 0 ==> v == requested
    ensures requested <= 0 ==> v == templateValue
    ensures v > 0 <==> requested > 0 || templateValue > 0
  {
    if requested > 0 then requested else templateValue
  }

  // ------------------------------------------------------------------ disk

  /** createDiskImage: `qemu-img create -f <format or qcow2> <path> <size>G`. */
  function BlankImage(path: string, sizeGb: int, format: string): (c: Cmd)
    ensures |c.argv| == 6 && c.argv[..3] == ["qemu-img", "create", "-f"]
    ensures c.argv[3] == (if format == "" then "qcow2" else format) && c.argv[4] == path
    ensures c.argv[5] == IntToString(sizeGb) + "G"
  {
    Run(["qemu-img", "create", "-f", OrDefault(format, "qcow2"), path, IntToString(sizeGb) + "G"])
  }

  /** The qcow2 overlay of a new disk on the template's disk as backing file. */
  function Overlay(backing: string, path: string): Cmd {
    Run(["qemu-img", "create", "-f", "qcow2", "-b", backing, "-F", "qcow2", path])
  }

  /**
   * The commands that produce the new VM's disk: an overlay on the
   * template's disk, followed by a plain copy when the overlay failed; a
   * blank image of the chosen size when the template has no disk.
   */
  function DiskPlan(templateDisk: string, path: string, sizeGb: int, format: string, overlayFailed: bool)
    : (plan: seq<Cmd>)
    ensures templateDisk != "" && overlayFailed ==> plan == [Overlay(templateDisk, path), Run(["cp", templateDisk, path])]
    ensures templateDisk != "" && !overlayFailed ==> plan == [Overlay(templateDisk, path)]
    ensures templateDisk == "" ==> plan == [BlankImage(path, sizeGb, format)]
    ensures forall i :: 0 <= i < |plan| ==> |plan[i].argv| > 0 && plan[i].argv[|plan[i].argv| - 1] in {path, IntToString(sizeGb) + "G"}
  {
    if templateDisk != "" then
      [Overlay(templateDisk, path)] + (if overlayFailed then [Run(["cp", templateDisk, path])] else [])
    else
      [BlankImage(path, sizeGb, format)]
  }

  /** Every command of the plan writes the new VM's disk: its target path is among its arguments. */
  lemma DiskPlanTargetsNewDisk(templateDisk: string, path: string, sizeGb: int, format: string, overlayFailed: bool)
    ensures var plan := DiskPlan(templateDisk, path, sizeGb, format, overlayFailed);
      forall i :: 0 <= i < |plan| ==> path in plan[i].argv
  {
    var plan := DiskPlan(templateDisk, path, sizeGb, format, overlayFailed);
    forall i | 0 <= i < |plan| ensures path in plan[i].argv {
      if templateDisk == "" {
        assert plan[i].argv[4] == path;
      } else {
        assert plan[i].argv[|plan[i].argv| - 1] == path;
      }
    }
  }

  // ------------------------------------------------------------------ ISO choice

  /** The ISO of the new VM: the caller's, else the cloud-init ISO (empty when none was made). */
  function IsoChoice(requested: string, cloudInitIso: string): (iso: string)
    ensures requested != "" ==> iso == requested
    ensures requested == "" ==> iso == cloudInitIso
    ensures iso == "" <==> requested == "" && cloudInitIso == ""
  {
    if cloudInitIso != "" && requested == "" then cloudInitIso else requested
  }

  // ------------------------------------------------------------------ default user-data

  const CloudConfigHeader := "#cloud-config\n"
  const UsersHeader := "users:\n"
  const SudoLine := "    sudo: ALL=(ALL) NOPASSWD:ALL\n"
  const ShellLine := "    shell: /bin/bash\n"
  const KeysHeader := "    ssh_authorized_keys:\n"
  const UpdateLine := "package_update: true\n"
  const UpgradeLine := "package_upgrade: true\n"

  function HostnameLine(hostname: string): string { "hostname: " + hostname + "\n" }

  function NameLine(username: string): string { "  - name: " + username + "\n" }

  function PasswdLine(hash: string): string { "    passwd: " + GoTrim(hash) + "\n" }

  /** One ssh_authorized_keys item; a key that trims to nothing contributes nothing. */
  function KeyItem(key: string): (item: string)
    ensures item == "" <==> GoTrim(key) == ""
    ensures item != "" ==> item == "      - " + GoTrim(key) + "\n"
  {
    var k := GoTrim(key);
    if k == "" then "" else "      - " + k + "\n"
  }

  /** The items of every key, in order. */
  function KeyItems(keys: seq<string>): string
    decreases |keys|
  {
    if keys == [] then "" else KeyItems(keys[..|keys| - 1]) + KeyItem(keys[|keys| - 1])
  }

  predicate AllBlank(keys: seq<string>) {
    forall i :: 0 <= i < |keys| ==> GoTrim(keys[i]) == ""
  }

  /** The key list is empty exactly when every key is blank. */
  lemma {:induction false} KeyItemsEmpty(keys: seq<string>)
    ensures KeyItems(keys) == "" <==> AllBlank(keys)
    decreases |keys|
  {
    if keys != [] {
      var init := keys[..|keys| - 1];
      KeyItemsEmpty(init);
      assert AllBlank(keys) <==> AllBlank(init) && GoTrim(keys[|keys| - 1]) == "" by {
        if AllBlank(init) && GoTrim(keys[|keys| - 1]) == "" {
          forall i | 0 <= i < |keys| ensures GoTrim(keys[i]) == "" {
            if i < |keys| - 1 {
              assert keys[i] == init[i];
            }
          }
        }
        if AllBlank(keys) {
          forall i | 0 <= i < |init| ensures GoTrim(init[i]) == "" {
            assert init[i] == keys[i];
          }
        }
      }
    }
  }

  predicate WantsUser(username: string, password: string, sshKeys: string) {
    username != "" || password != "" || sshKeys != ""
  }

  /**
   * The users section: the named user (default "user") with sudo and bash,
   * the hashed password when one was given and openssl succeeded, and the
   * ssh_authorized_keys list when keys were given.
   */
  function UsersBlock(username: string, password: string, sshKeys: string, hash: Option<string>): (block: string)
    ensures HasPrefix(block, UsersHeader)
  {
    var head := UsersHeader + NameLine(OrDefault(username, "user")) + SudoLine + ShellLine;
    var withPasswd := if password != "" && hash.Some? then head + PasswdLine(hash.value) else head;
    var block := if sshKeys == "" then withPasswd else withPasswd + KeysHeader + KeyItems(Split(sshKeys, '\n'));
    assert block[..|UsersHeader|] == UsersHeader;
    block
  }

  /** generateDefaultUserData's document as a whole. */
  function DefaultUserData(hostname: string, username: string, password: string, sshKeys: string,
                           hash: Option<string>): string
  {
    var withHost := if hostname != "" then CloudConfigHeader + HostnameLine(hostname) else CloudConfigHeader;
    var withUsers := if WantsUser(username, password, sshKeys)
                     then withHost + UsersBlock(username, password, sshKeys, hash) else withHost;
    withUsers + UpdateLine + UpgradeLine
  }

  /**
   * The default user-data is a #cloud-config document that ends with the
   * package settings, and between them holds exactly the host name line
   * (when a host name was given) and the users section (when a user name,
   * password or key was given).
   */
  lemma DefaultUserDataShape(hostname: string, username: string, password: string, sshKeys: string,
                             hash: Option<string>)
    ensures var middle := (if hostname != "" then HostnameLine(hostname) else "")
                        + (if WantsUser(username, password, sshKeys)
                           then UsersBlock(username, password, sshKeys, hash) else "");
      DefaultUserData(hostname, username, password, sshKeys, hash)
        == CloudConfigHeader + middle + (UpdateLine + UpgradeLine)
  {
    var h := if hostname != "" then HostnameLine(hostname) else "";
    var u := if WantsUser(username, password, sshKeys) then UsersBlock(username, password, sshKeys, hash) else "";
    var withHost := if hostname != "" then CloudConfigHeader + HostnameLine(hostname) else CloudConfigHeader;
    AppendEmpty(CloudConfigHeader);
    assert withHost == CloudConfigHeader + h;
    var withUsers := if WantsUser(username, password, sshKeys)
                     then withHost + UsersBlock(username, password, sshKeys, hash) else withHost;
    AppendEmpty(withHost);
    AppendAssoc(CloudConfigHeader, h, u);
    assert withUsers == CloudConfigHeader + (h + u);
    AppendAssoc(withUsers, UpdateLine, UpgradeLine);
  }

  /**
   * generateDefaultUserData: appends the header, the host name line, the
   * users section with one item per non-blank ssh key line, and the package
   * settings. `hash` is what `openssl passwd -6` printed (None when it failed).
   */
  method GenerateDefaultUserData(hostname: string, username: string, password: string, sshKeys: string,
                                 hash: Option<string>)
    returns (userData: string)
    ensures userData == DefaultUserData(hostname, username, password, sshKeys, hash)
  {
    userData := CloudConfigHeader;
    if hostname != "" {
      userData := userData + HostnameLine(hostname);
    }
    if username != "" || password != "" || sshKeys != "" {
      userData := AppendUsers(userData, username, password, sshKeys, hash);
    }
    userData := userData + UpdateLine;
    userData := userData + UpgradeLine;
  }

  /** The users part of generateDefaultUserData, appended line by line. */
  method AppendUsers(start: string, username: string, password: string, sshKeys: string, hash: Option<string>)
    returns (userData: string)
    ensures userData == start + UsersBlock(username, password, sshKeys, hash)
  {
    userData := start + UsersHeader;
    ghost var block := UsersHeader;
    var name := username;
    if name == "" {
      name := "user";
    }
    AppendAssoc(start, block, NameLine(name));
    userData, block := userData + NameLine(name), block + NameLine(name);
    AppendAssoc(start, block, SudoLine);
    userData, block := userData + SudoLine, block + SudoLine;
    AppendAssoc(start, block, ShellLine);
    userData, block := userData + ShellLine, block + ShellLine;
    if password != "" && hash.Some? {
      AppendAssoc(start, block, PasswdLine(hash.value));
      userData, block := userData + PasswdLine(hash.value), block + PasswdLine(hash.value);
    }
    if sshKeys != "" {
      AppendAssoc(start, block, KeysHeader);
      userData, block := userData + KeysHeader, block + KeysHeader;
      userData := AppendKeyItems(userData, Split(sshKeys, '\n'));
      AppendAssoc(start, block, KeyItems(Split(sshKeys, '\n')));
      block := block + KeyItems(Split(sshKeys, '\n'));
    }
    assert block == UsersBlock(username, password, sshKeys, hash);
  }

  /** The loop over the key lines: trims each and appends an item for every non-blank one. */
  method AppendKeyItems(start: string, keys: seq<string>) returns (userData: string)
    ensures userData == start + KeyItems(keys)
  {
    userData := start;
    AppendEmpty(start);
    var i := 0;
    while i < |keys|
      invariant 0 <= i <= |keys|
      invariant userData == start + KeyItems(keys[..i])
    {
      var key := GoTrim(keys[i]);
      TakeTake(keys, i);
      if key != "" {
        AppendAssoc(start, KeyItems(keys[..i]), KeyItem(keys[i]));
        userData := userData + ("      - " + key + "\n");
      } else {
        AppendEmpty(KeyItems(keys[..i]));
      }
      i := i + 1;
    }
    assert keys[..i] == keys;
  }

  // ------------------------------------------------------------------ placeholders

  /** The four ReplaceAll calls applied to a non-empty user-data template, in source order. */
  function FillPlaceholders(tmpl: string, hostname: string, username: string, password: string, sshKeys: string)
    : string
  {
    var a := ReplaceAll(tmpl, "{{hostname}}", hostname);
    var b := ReplaceAll(a, "{{username}}", username);
    var c := ReplaceAll(b, "{{password}}", password);
    ReplaceAll(c, "{{ssh_keys}}", sshKeys)
  }

  /** Substituting each placeholder by its own text gives back the template. */
  lemma FillWithPlaceholdersIsIdentity(tmpl: string)
    ensures FillPlaceholders(tmpl, "{{hostname}}", "{{username}}", "{{password}}", "{{ssh_keys}}") == tmpl
  {
    JoinSplitOn(tmpl, "{{hostname}}");
    JoinSplitOn(tmpl, "{{username}}");
    JoinSplitOn(tmpl, "{{password}}");
    JoinSplitOn(tmpl, "{{ssh_keys}}");
  }

  /** A template without any placeholder is written as it is, whatever the request says. */
  lemma PlaceholderFreeTemplateUnchanged(tmpl: string, hostname: string, username: string, password: string,
                                         sshKeys: string)
    requires Free(tmpl, "{{hostname}}") && Free(tmpl, "{{username}}")
    requires Free(tmpl, "{{password}}") && Free(tmpl, "{{ssh_keys}}")
    ensures FillPlaceholders(tmpl, hostname, username, password, sshKeys) == tmpl
  {
    ReplaceAllAbsent(tmpl, "{{hostname}}", hostname);
    ReplaceAllAbsent(tmpl, "{{username}}", username);
    ReplaceAllAbsent(tmpl, "{{password}}", password);
    ReplaceAllAbsent(tmpl, "{{ssh_keys}}", sshKeys);
  }

  /**
   * One substitution step is exactly a cut of the text at the occurrences
   * of the placeholder: the pieces contain no placeholder, joining them with
   * the placeholder gives the text back, and joining them with the value
   * gives the result.
   */
  lemma ReplaceAllPieces(s: string, pat: string, rep: string)
    requires pat != []
    ensures var pieces := SplitOn(s, pat);
      Join(pieces, pat) == s && ReplaceAll(s, pat, rep) == Join(pieces, rep)
      && forall i :: 0 <= i < |pieces| ==> Free(pieces[i], pat)
  {
    JoinSplitOn(s, pat);
    SplitOnFree(s, pat);
  }

  // ------------------------------------------------------------------ cloud-init ISO

  function UserDataText(tmpl: string, hostname: string, username: string, password: string, sshKeys: string,
                        hash: Option<string>): (u: string)
    ensures tmpl == "" ==> u == DefaultUserData(hostname, username, password, sshKeys, hash)
    ensures tmpl != "" ==> u == FillPlaceholders(tmpl, hostname, username, password, sshKeys)
  {
    if tmpl == "" then DefaultUserData(hostname, username, password, sshKeys, hash)
    else FillPlaceholders(tmpl, hostname, username, password, sshKeys)
  }

  /** The meta-data: the template when given, else the instance id and host name (default: the VM name). */
  function MetaDataText(tmpl: string, vmName: string, hostname: string): (m: string)
    ensures tmpl != "" ==> m == tmpl
    ensures tmpl == "" ==> HasPrefix(m, "instance-id: " + vmName + "\n")
    ensures tmpl == "" ==> HasSuffix(m, "local-hostname: " + OrDefault(hostname, vmName) + "\n")
  {
    if tmpl != "" then tmpl
    else
      var head := "instance-id: " + vmName + "\n";
      var tail := "local-hostname: " + OrDefault(hostname, vmName) + "\n";
      assert (head + tail)[..|head|] == head;
      assert (head + tail)[|head + tail| - |tail|..] == tail;
      head + tail
  }

  /** The temporary directory the cloud-init files are written to; the VM name reads back after the prefix. */
  function CloudInitDir(vmName: string): (dir: string)
    ensures HasPrefix(dir, "/tmp/cloud-init-") && dir[|"/tmp/cloud-init-"|..] == vmName
  {
    "/tmp/cloud-init-" + vmName
  }

  /** The seed ISO: in the VM directory, named after the VM, ending in -cloud-init.iso. */
  function CloudInitIsoPath(vmName: string): (path: string)
    ensures HasPrefix(path, VMDir + "/") && HasSuffix(path, "-cloud-init.iso")
    ensures |path| == |VMDir| + 1 + |vmName| + |"-cloud-init.iso"| && path[|VMDir| + 1..|path| - |"-cloud-init.iso"|] == vmName
  {
    VMDir + "/" + vmName + "-cloud-init.iso"
  }

  /** What createCloudInitISO did: the files it wrote, the commands it ran, and its result. */
  datatype CloudInit = CloudInit(files: seq<(string, string)>, commands: seq<Cmd>, iso: string)

  /** The files written to the temporary directory: user-data, meta-data and, when given, network-config. */
  function CloudInitFiles(userData: string, metaData: string, networkConfig: string): (files: seq<(string, string)>)
    ensures |files| == (if networkConfig == "" then 2 else 3)
    ensures files[0] == ("user-data", userData) && files[1] == ("meta-data", metaData)
    ensures networkConfig != "" ==> files[2] == ("network-config", networkConfig)
  {
    [("user-data", userData), ("meta-data", metaData)]
    + (if networkConfig == "" then [] else [("network-config", networkConfig)])
  }

  /** genisoimage's command line; network-config is appended only when it was written. */
  function GenIsoArgs(isoPath: string, dir: string, networkConfig: string): (argv: seq<string>)
    ensures |argv| == (if networkConfig == "" then 9 else 10)
    ensures argv[..7] == ["genisoimage", "-output", isoPath, "-volid", "cidata", "-joliet", "-rock"]
  {
    ["genisoimage", "-output", isoPath, "-volid", "cidata", "-joliet", "-rock",
     dir + "/user-data", dir + "/meta-data"]
    + (if networkConfig == "" then [] else [dir + "/network-config"])
  }

  /** Every file written is handed to genisoimage, in the same order, and nothing else is. */
  lemma IsoPacksEveryFile(isoPath: string, dir: string, userData: string, metaData: string, networkConfig: string)
    ensures var files := CloudInitFiles(userData, metaData, networkConfig);
      var argv := GenIsoArgs(isoPath, dir, networkConfig);
      |argv| == 7 + |files| && forall i :: 0 <= i < |files| ==> argv[7 + i] == dir + "/" + files[i].0
  {
    var files := CloudInitFiles(userData, metaData, networkConfig);
    var argv := GenIsoArgs(isoPath, dir, networkConfig);
    forall i | 0 <= i < |files| ensures argv[7 + i] == dir + "/" + files[i].0 {
      assert files[i].0 == ["user-data", "meta-data", "network-config"][i];
    }
  }

  /**
   * createCloudInitISO: writes the files, runs genisoimage (cloud-localds
   * with user-data and meta-data when that fails), and returns the ISO path,
   * or "" when no ISO file exists afterwards. The user-data sees the host
   * name as given; only the meta-data falls back to the VM name.
   */
  function CreateCloudInitIso(vmName: string, r: InstanceRequest, t: Template, tools: Tools): (c: CloudInit)
    ensures c.files == CloudInitFiles(
              UserDataText(t.userData, r.hostname, r.username, r.password, r.sshKeys, tools.passwordHash),
              MetaDataText(t.metaData, vmName, r.hostname), t.networkConfig)
    ensures |c.commands| == (if tools.genisoFailed then 2 else 1)
    ensures c.commands[0].argv == GenIsoArgs(CloudInitIsoPath(vmName), CloudInitDir(vmName), t.networkConfig)
    ensures tools.genisoFailed ==> c.commands[1].argv == ["cloud-localds", CloudInitIsoPath(vmName),
                                                          CloudInitDir(vmName) + "/user-data",
                                                          CloudInitDir(vmName) + "/meta-data"]
    ensures c.iso == (if tools.isoExists then CloudInitIsoPath(vmName) else "")
  {
    var dir := CloudInitDir(vmName);
    var iso := CloudInitIsoPath(vmName);
    var userData := UserDataText(t.userData, r.hostname, r.username, r.password, r.sshKeys, tools.passwordHash);
    var metaData := MetaDataText(t.metaData, vmName, r.hostname);
    var genIso := Run(GenIsoArgs(iso, dir, t.networkConfig));
    var fallback := Run(["cloud-localds", iso, dir + "/user-data", dir + "/meta-data"]);
    CloudInit(CloudInitFiles(userData, metaData, t.networkConfig),
              [genIso] + (if tools.genisoFailed then [fallback] else []),
              if tools.isoExists then iso else "")
  }

  /** The work done for a new VM before its row is inserted, and the ISO the row gets. */
  datatype Provision = Provision(disk: seq<Cmd>, cloudInit: Option<CloudInit>, isoPath: string)

  /**
   * The disk of the new VM (at VMDir/<name>.qcow2, sized by the override),
   * the cloud-init ISO when the template enables it, and the ISO choice.
   */
  function ProvisionFor(t: Template, r: InstanceRequest, tools: Tools): Provision {
    var disk := DiskPlan(t.diskPath, VMDir + "/" + r.name + ".qcow2", Override(r.diskSizeGb, t.diskSizeGb),
                         t.diskFormat, tools.overlayFailed);
    var cloudInit := if t.cloudInitEnabled then Some(CreateCloudInitIso(r.name, r, t, tools)) else None;
    Provision(disk, cloudInit, IsoChoice(r.isoPath, if cloudInit.Some? then cloudInit.value.iso else ""))
  }

  // ------------------------------------------------------------------ rows

  /**
   * The virtual_machines row CreateVMFromTemplateHandler inserts, as the
   * VM SELECT reads it back (columns the insert leaves out take their
   * COALESCE defaults).
   */
  function InstanceRow(t: Template, r: InstanceRequest, gen: Generated, spicePort: int, vncPort: int,
                       isoPath: string): (vm: Vm)
    ensures vm.name == r.name && vm.uuid == gen.uuid && vm.macAddress == gen.mac
    ensures vm.cpuCores == Override(r.cpuCores, t.cpuCores) && vm.ramMb == Override(r.ramMb, t.ramMb)
    ensures vm.diskSizeGb == Override(r.diskSizeGb, t.diskSizeGb)
    ensures vm.cpuType == t.cpuType && vm.diskFormat == t.diskFormat && vm.networkMode == t.networkMode
    ensures vm.displayType == t.displayType && vm.firmwareType == t.firmwareType
    ensures vm.diskPath == VMDir + "/" + r.name + ".qcow2" && vm.isoPath == isoPath
    ensures vm.bootOrder == "cd,hd" && vm.networkModel == "virtio" && vm.status == "stopped" && vm.pid == None
    ensures vm.qmpSocketPath == QMPSocketDir + "/" + gen.uuid + ".sock"
    ensures vm.spicePort == spicePort && vm.vncPort == vncPort
  {
    Vm(name := r.name, uuid := gen.uuid,
       cpuCores := Override(r.cpuCores, t.cpuCores), ramMb := Override(r.ramMb, t.ramMb), cpuType := t.cpuType,
       balloonEnabled := true, hugepagesEnabled := false,
       diskPath := VMDir + "/" + r.name + ".qcow2", diskSizeGb := Override(r.diskSizeGb, t.diskSizeGb),
       diskFormat := t.diskFormat, cacheMode := "writeback", discardEnabled := true,
       bootOrder := "cd,hd", isoPath := isoPath, physicalDiskDevice := "",
       firmwareType := t.firmwareType, tpmEnabled := false,
       networkMode := t.networkMode, networkBridge := "", macAddress := gen.mac, networkModel := "virtio",
       displayType := t.displayType, spicePort := spicePort, vncPort := vncPort,
       spicePassword := gen.spicePassword, vncPassword := gen.vncPassword,
       qmpSocketPath := QMPSocketDir + "/" + gen.uuid + ".sock",
       status := "stopped", pid := None, lastStartedAt := None)
  }

  /** The template SaveVMAsTemplateHandler inserts from a VM row. */
  function TemplateOf(vm: Vm, name: string, description: string, diskPath: string, diskSize: int,
                      user: Option<int>): (t: Template)
    ensures t.name == name && t.description == description && t.diskPath == diskPath
    ensures t.cpuCores == vm.cpuCores && t.ramMb == vm.ramMb && t.cpuType == vm.cpuType
    ensures t.diskSizeGb == vm.diskSizeGb && t.diskFormat == vm.diskFormat
    ensures t.networkMode == vm.networkMode && t.displayType == vm.displayType && t.firmwareType == vm.firmwareType
    ensures !t.cloudInitEnabled && t.downloadCount == 0 && t.createdBy == user
  {
    Template(name, description, vm.cpuCores, vm.ramMb, vm.cpuType, vm.diskSizeGb, vm.diskFormat,
             vm.networkMode, vm.displayType, vm.firmwareType, diskPath, diskSize,
             false, "", "", "", 0, user)
  }

  /** A template name: the requested one, else the VM's name with "_template". */
  function TemplateName(requested: string, vmName: string): (name: string)
    ensures requested != "" ==> name == requested
    ensures requested == "" ==> name == vmName + "_template" && HasSuffix(name, "_template")
  {
    if requested == "" then
      var n := vmName + "_template";
      assert n[|n| - |"_template"|..] == "_template";
      n
    else requested
  }

  /** A template made from a VM and instantiated with no overrides reproduces the VM's sizing and devices. */
  lemma SaveThenInstantiateKeepsSizing(vm: Vm, name: string, description: string, diskPath: string, diskSize: int,
                                       user: Option<int>, r: InstanceRequest, gen: Generated,
                                       spicePort: int, vncPort: int, isoPath: string)
    requires r.cpuCores <= 0 && r.ramMb <= 0 && r.diskSizeGb <= 0
    ensures var row := InstanceRow(TemplateOf(vm, name, description, diskPath, diskSize, user), r, gen,
                                   spicePort, vncPort, isoPath);
      row.cpuCores == vm.cpuCores && row.ramMb == vm.ramMb && row.diskSizeGb == vm.diskSizeGb
      && row.cpuType == vm.cpuType && row.diskFormat == vm.diskFormat && row.networkMode == vm.networkMode
      && row.displayType == vm.displayType && row.firmwareType == vm.firmwareType
  {
  }

  // ------------------------------------------------------------------ tables

  /** The vm_templates table and the virtual_machines rows the template handlers read and write. */
  class TemplateCatalog {
    var templates: map<int, Template>
    var vms: map<int, Vm>
    var vmTemplate: map<int, int>
    var nextTemplateId: int
    var nextVmId: int

    ghost predicate Valid()
      reads this
    {
      (forall id :: id in templates ==> id < nextTemplateId)
      && (forall id :: id in vms ==> id < nextVmId)
      && (forall id :: id in vmTemplate ==> id in vms)
    }

    constructor (vms0: map<int, Vm>, nextVmId0: int)
      requires forall id :: id in vms0 ==> id < nextVmId0
      ensures Valid() && templates == map[] && vms == vms0 && vmTemplate == map[]
    {
      templates := map[];
      vms := vms0;
      vmTemplate := map[];
      nextTemplateId := 1;
      nextVmId := nextVmId0;
    }

    /**
     * SaveVMAsTemplateHandler: refuses a running VM; names the template
     * after the VM by default; copies the disk into the template directory
     * when asked and the VM has one (a failed copy is a 500 and inserts
     * nothing); then inserts the row.
     */
    method SaveAsTemplate(vmId: int, body: Option<SaveRequest>, user: Option<int>,
                          copyError: Option<string>, copiedSize: Option<int>, insertError: Option<string>)
      returns (reply: Reply, templateId: Option<int>, copy: Option<Cmd>)
      requires Valid()
      modifies this`templates, this`nextTemplateId
      ensures Valid()
      ensures body == None ==> reply == Reply(400, "Invalid request")
      ensures body.Some? && vmId !in vms ==> reply == Reply(404, "VM not found")
      ensures body.Some? && vmId in vms && vms[vmId].status == "running" ==>
                reply == Reply(400, "Cannot save template from running VM") && copy == None
      ensures reply.code != 200 ==> templates == old(templates) && templateId == None
      ensures copy.Some? ==>
                (body.Some? && body.value.includeDisk && vmId in vms && vms[vmId].diskPath != ""
                 && copy.value == Run(["cp", vms[vmId].diskPath,
                                       TemplateDir + "/" + TemplateName(body.value.name, vms[vmId].name) + ".qcow2"]))
      ensures reply.code == 200 <==>
                (body.Some? && vmId in vms && vms[vmId].status != "running"
                 && (copy.Some? ==> copyError == None) && insertError == None)
      ensures reply.code == 200 ==>
                var vm := vms[vmId];
                var name := TemplateName(body.value.name, vm.name);
                templateId.Some? && templateId.value !in old(templates)
                && templates == old(templates)[templateId.value := TemplateOf(
                     vm, name, body.value.description,
                     if copy.Some? then TemplateDir + "/" + name + ".qcow2" else "",
                     if copy.Some? && copiedSize.Some? then copiedSize.value else 0, user)]
    {
      templateId, copy := None, None;
      if body == None {
        return Reply(400, "Invalid request"), None, None;
      }
      var req := body.value;
      if vmId !in vms {
        return Reply(404, "VM not found"), None, None;
      }
      var vm := vms[vmId];
      if vm.status == "running" {
        return Reply(400, "Cannot save template from running VM"), None, None;
      }
      var name := TemplateName(req.name, vm.name);
      var diskPath := "";
      var diskSize := 0;
      if req.includeDisk && vm.diskPath != "" {
        diskPath := TemplateDir + "/" + name + ".qcow2";
        copy := Some(Run(["cp", vm.diskPath, diskPath]));
        if copyError.Some? {
          return Reply(500, "Failed to copy disk: " + copyError.value), None, copy;
        }
        if copiedSize.Some? {
          diskSize := copiedSize.value;
        }
      }
      if insertError.Some? {
        return Reply(400, "Failed to create template: " + insertError.value), None, copy;
      }
      var id := nextTemplateId;
      templates := templates[id := TemplateOf(vm, name, req.description, diskPath, diskSize, user)];
      nextTemplateId := nextTemplateId + 1;
      reply, templateId := OK, Some(id);
    }

    /** allocatePort for the SPICE and the VNC column, over the rows of virtual_machines. */
    method AllocatePorts() returns (spicePort: int, vncPort: int)
      ensures Allocation(UsedPorts(vms, "spice"), "spice", spicePort) && Allocation(UsedPorts(vms, "vnc"), "vnc", vncPort)
      ensures 5900 <= spicePort <= 6000 && 5950 <= vncPort <= 6050
    {
      spicePort := AllocatePort(UsedPorts(vms, "spice"), "spice");
      vncPort := AllocatePort(UsedPorts(vms, "vnc"), "vnc");
    }

    /**
     * CreateVMFromTemplateHandler: a name is required and the template
     * must exist; the new VM takes the template's settings with the
     * positive request overrides, freshly allocated ports, a disk from
     * DiskPlan, and the caller's ISO or the cloud-init ISO. Only a
     * successful insert bumps the template's download_count.
     */
    method CreateFromTemplate(templateId: int, body: Option<InstanceRequest>, gen: Generated, tools: Tools,
                              insertError: Option<string>)
      returns (reply: Reply, vmId: Option<int>, provision: Option<Provision>)
      requires Valid()
      modifies this`vms, this`vmTemplate, this`templates, this`nextVmId
      ensures Valid()
      ensures body == None ==> reply == Reply(400, "Invalid request")
      ensures body.Some? && body.value.name == "" ==> reply == Reply(400, "VM name is required")
      ensures body.Some? && body.value.name != "" && templateId !in templates ==>
                reply == Reply(404, "Template not found")
      ensures provision.Some? <==> body.Some? && body.value.name != "" && templateId in old(templates)
      ensures provision.Some? ==> provision.value == ProvisionFor(old(templates)[templateId], body.value, tools)
      ensures reply.code == 200 <==> provision.Some? && insertError == None
      ensures reply.code != 200 ==>
                vms == old(vms) && templates == old(templates) && vmTemplate == old(vmTemplate) && vmId == None
      ensures reply.code == 200 ==>
                var t := old(templates)[templateId];
                vmId.Some? && vmId.value !in old(vms) && vmId.value in vms
                && vms == old(vms)[vmId.value := InstanceRow(t, body.value, gen, vms[vmId.value].spicePort,
                                                             vms[vmId.value].vncPort, provision.value.isoPath)]
                && vmTemplate == old(vmTemplate)[vmId.value := templateId]
                && templates == old(templates)[templateId := t.(downloadCount := t.downloadCount + 1)]
                && Allocation(UsedPorts(old(vms), "spice"), "spice", vms[vmId.value].spicePort)
                && Allocation(UsedPorts(old(vms), "vnc"), "vnc", vms[vmId.value].vncPort)
    {
      if body == None {
        return Reply(400, "Invalid request"), None, None;
      }
      var r := body.value;
      if r.name == "" {
        return Reply(400, "VM name is required"), None, None;
      }
      if templateId !in templates {
        return Reply(404, "Template not found"), None, None;
      }
      var p := ProvisionFor(templates[templateId], r, tools);
      provision := Some(p);
      reply, vmId := Instantiate(templateId, r, gen, p.isoPath, insertError);
    }

    /** The insert of the new row and, after it succeeded, the download_count update. */
    method Instantiate(templateId: int, r: InstanceRequest, gen: Generated, isoPath: string,
                       insertError: Option<string>)
      returns (reply: Reply, vmId: Option<int>)
      requires Valid() && templateId in templates
      modifies this`vms, this`vmTemplate, this`templates, this`nextVmId
      ensures Valid()
      ensures reply.code == 200 <==> insertError == None
      ensures reply.code != 200 ==>
                vms == old(vms) && templates == old(templates) && vmTemplate == old(vmTemplate) && vmId == None
      ensures reply.code == 200 ==>
                var t := old(templates)[templateId];
                vmId.Some? && vmId.value !in old(vms) && vmId.value in vms
                && vms == old(vms)[vmId.value := InstanceRow(t, r, gen, vms[vmId.value].spicePort,
                                                             vms[vmId.value].vncPort, isoPath)]
                && vmTemplate == old(vmTemplate)[vmId.value := templateId]
                && templates == old(templates)[templateId := t.(downloadCount := t.downloadCount + 1)]
                && Allocation(UsedPorts(old(vms), "spice"), "spice", vms[vmId.value].spicePort)
                && Allocation(UsedPorts(old(vms), "vnc"), "vnc", vms[vmId.value].vncPort)
    {
      var t := templates[templateId];
      var spicePort, vncPort := AllocatePorts();
      if insertError.Some? {
        return Reply(400, "Failed to create VM: " + insertError.value), None;
      }
      var id := nextVmId;
      vms := vms[id := InstanceRow(t, r, gen, spicePort, vncPort, isoPath)];
      vmTemplate := vmTemplate[id := templateId];
      nextVmId := nextVmId + 1;
      templates := templates[templateId := t.(downloadCount := t.downloadCount + 1)];
      reply, vmId := OK, Some(id);
    }
  }
}
