/**
 * The VM action endpoint (public/api/vm-control.php): the ISO upload with
 * its checks, file-name sanitising and collision renaming, and the
 * dispatch of the other actions to the VM class with the activity rows
 * they write and the replies they give.
 *
 * The ISO directory is the set of names in it, the activity_log table a
 * sequence. The VM class's methods, the clock, move_uploaded_file and
 * the directory checks are parameters.
 */
module VmControl {
  import opened Text
  import Logger

  // ------------------------------------------------------------------ file names

  /** pathinfo(PATHINFO_EXTENSION) of a base name: after the last dot, "" without one. */
  function Extension(name: string): (ext: string)
    ensures '.' !in ext
    ensures |ext| <= |name| && ext == name[|name| - |ext|..]
  {
    var k := LastIndexOf(name, '.');
    if k < 0 then ""
    else
      var ext := name[k + 1..];
      assert forall j :: 0 <= j < |ext| ==> ext[j] == name[k + 1 + j];
      ext
  }

  /** pathinfo(PATHINFO_FILENAME) of a base name: before the last dot, all of it without one. */
  function Stem(name: string): string {
    var k := LastIndexOf(name, '.');
    if k < 0 then name else name[..k]
  }

  /** A name with a dot is its stem, the dot and its extension. */
  lemma StemDotExtension(name: string)
    requires '.' in name
    ensures name == Stem(name) + "." + Extension(name)
  {
    var k := LastIndexOf(name, '.');
    if k < 0 {
      assert false;
    }
    assert name == name[..k] + [name[k]] + name[k + 1..];
  }

  /** The characters the sanitiser keeps: [a-zA-Z0-9._-]. */
  predicate SafeChar(c: char) {
    ('a' <= c <= 'z') || ('A' <= c <= 'Z') || ('0' <= c <= '9') || c == '.' || c == '_' || c == '-'
  }

  /** preg_replace('/[^a-zA-Z0-9._-]/', '_', …) */
  function Sanitize(s: string): (r: string)
    ensures |r| == |s|
    decreases |s|
  {
    if s == [] then []
    else Sanitize(s[..|s| - 1]) + [if SafeChar(s[|s| - 1]) then s[|s| - 1] else '_']
  }

  /** Sanitising a sanitised name changes nothing. */
  lemma SanitizeIdempotent(s: string)
    ensures Sanitize(Sanitize(s)) == Sanitize(s)
  {
    SafeNameChars(s);
    SafeNameChars(Sanitize(s));
  }

  /** Sanitising keeps the dots where they are, so the last dot stays the last dot. */
  lemma {:induction false} SanitizeLastDot(s: string)
    ensures LastIndexOf(Sanitize(s), '.') == LastIndexOf(s, '.')
    decreases |s|
  {
    if s != [] {
      var init := s[..|s| - 1];
      SanitizeLastDot(init);
      SafeNameChars(s);
      assert Sanitize(s)[..|s| - 1] == Sanitize(init);
    }
  }

  /** The extension of the sanitised name is the sanitised extension. */
  lemma SanitizeExtension(s: string)
    ensures Extension(Sanitize(s)) == Sanitize(Extension(s))
  {
    SanitizeLastDot(s);
    var k := LastIndexOf(s, '.');
    if k >= 0 {
      SafeNameChars(s);
      SafeNameChars(s[k + 1..]);
      assert Sanitize(s)[k + 1..] == Sanitize(s[k + 1..]);
    }
  }

  /** The largest upload accepted: 20 GiB. */
  const MaxIsoSize := 20 * 1024 * 1024 * 1024

  const IsoDir := "/opt/serveros/storage/isos"

  /** A name already taken gets `<stem>_<time>.<extension>`. */
  function UniqueName(name: string, now: int): (r: string)
    ensures HasPrefix(r, Stem(name) + "_" + IntToString(now))
    ensures HasSuffix(r, "." + Extension(name))
  {
    Stem(name) + "_" + IntToString(now) + "." + Extension(name)
  }

  /** The renamed file keeps the extension. */
  lemma UniqueNameExtension(name: string, now: int)
    ensures Extension(UniqueName(name, now)) == Extension(name)
  {
    var a := Stem(name) + "_" + IntToString(now);
    var ext := Extension(name);
    assert UniqueName(name, now) == a + ['.'] + ext;
    LastIndexOfAppend(a, '.', ext);
  }

  /** An ".iso" extension in any case is all letters, so the sanitiser leaves it alone. */
  lemma IsoExtensionSafe(ext: string)
    requires ToLower(ext) == "iso"
    ensures Sanitize(ext) == ext
  {
    SafeNameChars(ext);
    assert |ext| == 3;
    assert LowerChar(ext[0]) == 'i' && LowerChar(ext[1]) == 's' && LowerChar(ext[2]) == 'o';
  }

  // ------------------------------------------------------------------ the endpoint

  /** $_FILES['iso_file']: the client's file name, the upload error code and the size. */
  datatype Upload = Upload(name: string, error: int, size: int)

  const UploadErrOk := 0

  /** The filesystem's answers during an upload. */
  datatype Disk = Disk(mkdirOk: bool, writable: bool, moveOk: bool, lastError: Option<string>)

  /** What the VM class does when called: returns a payload, or throws an Exception or an Error. */
  datatype Outcome = Returned(payload: Logger.Json) | ThrewException(message: string) | ThrewError(message: string)

  /** The actions other than the upload. */
  datatype Action =
    | Start | Stop | Restart | Status | Logs | ListIsos | ListDisks | ListBridges
    | CreateBackup | ListBackups | ListAllBackups | CheckBackupStatus | RestoreBackup | DeleteBackup

  function ActionOf(s: string): Option<Action> {
    match s
    case "start" => Some(Start)
    case "stop" => Some(Stop)
    case "restart" => Some(Restart)
    case "status" => Some(Status)
    case "logs" => Some(Logs)
    case "list_isos" => Some(ListIsos)
    case "list_disks" => Some(ListDisks)
    case "list_bridges" => Some(ListBridges)
    case "create_backup" => Some(CreateBackup)
    case "list_backups" => Some(ListBackups)
    case "list_all_backups" => Some(ListAllBackups)
    case "check_backup_status" => Some(CheckBackupStatus)
    case "restore_backup" => Some(RestoreBackup)
    case "delete_backup" => Some(DeleteBackup)
    case _ => None
  }

  /** The activity row an action writes: its action name and description; none for the read-only ones. */
  function ActivityFor(a: Action, name: string, force: bool): (row: Option<(string, string)>)
    ensures row.Some? <==> a in {Start, Stop, Restart, CreateBackup, RestoreBackup, DeleteBackup}
  {
    match a
    case Start => Some(("vm_start", "Started VM: " + name))
    case Stop => Some(("vm_stop", "Stopped VM: " + name + (if force then " (forced)" else "")))
    case Restart => Some(("vm_restart", "Restarted VM: " + name))
    case CreateBackup => Some(("vm_backup_create", "Created backup for VM: " + name))
    case RestoreBackup => Some(("vm_backup_restore", "Restored VM from backup: " + name))
    case DeleteBackup => Some(("vm_backup_delete", "Deleted backup: " + name))
    case _ => None
  }

  /** The JSON fields after "success": true for an action whose VM call returned `payload`. */
  function ReplyFields(a: Action, payload: Logger.Json): seq<Logger.Field> {
    match a
    case Start => [Logger.Field("message", Logger.JStr("VM started successfully"))]
    case Stop => [Logger.Field("message", Logger.JStr("VM stopped successfully"))]
    case Restart => [Logger.Field("message", Logger.JStr("VM restarted successfully"))]
    case Status => [Logger.Field("status", payload)]
    case Logs => [Logger.Field("logs", payload)]
    case ListIsos => [Logger.Field("isos", payload)]
    case ListDisks => [Logger.Field("disks", payload)]
    case ListBridges => [Logger.Field("bridges", payload)]
    case CreateBackup => [Logger.Field("backup_id", payload), Logger.Field("message", Logger.JStr("Backup started"))]
    case ListBackups => [Logger.Field("backups", payload)]
    case ListAllBackups => [Logger.Field("backups", payload)]
    case CheckBackupStatus => [Logger.Field("status", payload)]
    case RestoreBackup => [Logger.Field("message", Logger.JStr("Backup restored successfully"))]
    case DeleteBackup => [Logger.Field("message", Logger.JStr("Backup deleted successfully"))]
  }

  /** The reply: success with fields, or failure with a status and the error text. */
  datatype Response = Success(fields: seq<Logger.Field>) | Failure(status: int, error: string)

  /** The reply for a thrown Exception or Error. */
  function Thrown(o: Outcome): (r: Response)
    requires !o.Returned?
    ensures r.Failure? && r.status == 500
  {
    if o.ThrewException? then Failure(500, o.message) else Failure(500, "Server error: " + o.message)
  }

  /** The backup actions, whose methods class VM in src/VM.php does not define. */
  predicate IsBackupAction(a: Action) {
    a.CreateBackup? || a.ListBackups? || a.ListAllBackups? || a.CheckBackupStatus? || a.RestoreBackup? || a.DeleteBackup?
  }

  /** The first VM method a backup branch calls (delete_backup looks the backup up before deleting it). */
  function BackupMethod(a: Action): string
    requires IsBackupAction(a)
  {
    match a
    case CreateBackup => "createBackup"
    case ListBackups => "getBackups"
    case ListAllBackups => "getAllBackups"
    case CheckBackupStatus => "checkBackupStatus"
    case RestoreBackup => "restoreBackup"
    case DeleteBackup => "getBackupById"
  }

  /** The message of PHP's Error for calling a backup method class VM lacks. */
  function UndefinedMethod(a: Action): string
    requires IsBackupAction(a)
  {
    "Call to undefined method VM::" + BackupMethod(a) + "()"
  }

  /**
   * The VM class as written: it has no backup methods, so each backup
   * branch throws PHP's Error for an undefined method; every other call
   * behaves as `vm` says.
   */
  function ClassAsWritten(vm: Action -> Outcome): (call: Action -> Outcome)
    ensures forall a :: IsBackupAction(a) ==> call(a) == ThrewError(UndefinedMethod(a))
    ensures forall a :: !IsBackupAction(a) ==> call(a) == vm(a)
  {
    a => if IsBackupAction(a) then ThrewError(UndefinedMethod(a)) else vm(a)
  }

  /**
   * As written, every backup action reaches the Error handler: the reply
   * is 500 "Server error: Call to undefined method VM::…()", so no backup
   * is made and, by Dispatch's contract, no activity row is written.
   */
  lemma BackupActionsFail(a: Action, vm: Action -> Outcome)
    requires IsBackupAction(a)
    ensures !ClassAsWritten(vm)(a).Returned?
    ensures Thrown(ClassAsWritten(vm)(a)) == Failure(500, "Server error: " + UndefinedMethod(a))
  {
    var call := ClassAsWritten(vm);
    assert call(a) == ThrewError(UndefinedMethod(a));
  }

  /** The text of the exception thrown when the move fails. */
  function MoveFailure(lastError: Option<string>, writable: bool): (m: string)
    ensures HasPrefix(m, "Failed to save uploaded file")
  {
    "Failed to save uploaded file"
      + (if lastError.Some? && !(lastError.value == "" || lastError.value == "0") then ": " + lastError.value else "")
      + (if !writable then " - Directory is not writable" else "")
  }

  /** An activity_log row. */
  datatype Activity = Activity(userId: int, action: string, description: string, ip: string)

  /** The reason an upload is refused, checked in this order. */
  function Rejection(upload: Option<Upload>): string {
    if upload.None? || upload.value.error != UploadErrOk then "No file uploaded or upload error occurred"
    else if ToLower(Extension(Basename(upload.value.name))) != "iso" then "Invalid file type. Only .iso files are allowed."
    else "File size too large. Maximum size is 20GB."
  }

  /** The reply fields of a stored upload. */
  function UploadFields(name: string, size: int): (fields: seq<Logger.Field>)
    ensures Logger.Lookup(fields, "filename") == Some(Logger.JStr(name))
    ensures Logger.Lookup(fields, "path") == Some(Logger.JStr(IsoDir + "/" + name))
    ensures Logger.Lookup(fields, "size") == Some(Logger.JInt(size))
  {
    var fields := [Logger.Field("message", Logger.JStr("ISO file uploaded successfully")),
                   Logger.Field("filename", Logger.JStr(name)), Logger.Field("path", Logger.JStr(IsoDir + "/" + name)),
                   Logger.Field("size", Logger.JInt(size))];
    assert Logger.Lookup(fields, "filename") == Logger.Lookup(fields[1..], "filename");
    assert Logger.Lookup(fields, "path") == Logger.Lookup(fields[1..], "path") == Logger.Lookup(fields[2..], "path");
    assert Logger.Lookup(fields, "size") == Logger.Lookup(fields[1..], "size") == Logger.Lookup(fields[2..], "size")
      == Logger.Lookup(fields[3..], "size");
    fields
  }

  /** $input['action'] ?? $_GET['action'] ?? '' */
  function RequestAction(body: Option<Scalar>, query: Option<Scalar>): Scalar {
    if body.Some? && body.value != Null then body.value
    else if query.Some? && query.value != Null then query.value
    else Str("")
  }

  /**
   * The case label a PHP 8 switch picks for the action: a string picks
   * its own label; `true` loosely equals the first label, "upload_iso";
   * false, null and numbers equal none of the labels.
   */
  function Selected(v: Scalar): (picked: Option<string>)
    ensures v.Str? ==> picked == Some(v.s)
    ensures picked == Some("upload_iso") <==> v == Str("upload_iso") || v == Bool(true)
  {
    if v.Str? then Some(v.s) else if v == Bool(true) then Some("upload_iso") else None
  }

  /** The activity row of a stored upload. */
  function UploadActivity(userId: int, name: string, sizeText: string, ip: string): Activity {
    Activity(userId, "iso_upload", "Uploaded ISO file: " + name + " (" + sizeText + " MB)", ip)
  }

  /** Whether the upload passes validation before anything touches the disk. */
  predicate Acceptable(upload: Option<Upload>) {
    upload.Some? && upload.value.error == UploadErrOk
    && ToLower(Extension(Basename(upload.value.name))) == "iso" && upload.value.size <= MaxIsoSize
  }

  class VmControl {
    /** Whether the ISO directory exists. */
    var isoDirExists: bool
    /** The names of the files in the ISO directory. */
    var isoFiles: set<string>
    /** Rows added to activity_log. */
    var activity: seq<Activity>

    constructor (isoDirExists: bool, isoFiles: set<string>)
      ensures this.isoDirExists == isoDirExists && this.isoFiles == isoFiles && activity == []
    {
      this.isoDirExists, this.isoFiles, activity := isoDirExists, isoFiles, [];
    }

    /**
     * upload_iso: reject a missing or failed upload, a non-.iso name and a
     * file over 20 GiB; make the directory if needed; sanitise the base
     * name, renaming it when taken; move the file in and log the upload.
     * `sizeText` is the size in MB as number_format renders it.
     */
    method UploadIso(upload: Option<Upload>, disk: Disk, now: int, userId: int, ip: string, sizeText: string)
      returns (response: Response)
      modifies this
      ensures !Acceptable(upload) ==> response == Failure(500, Rejection(upload)) && Same()
      ensures response.Success? ==> (Acceptable(upload) && isoDirExists
        && isoFiles == old(isoFiles) + {IsoName(Basename(upload.value.name), old(isoFiles), now)}
        && activity == old(activity) + [UploadActivity(userId, IsoName(Basename(upload.value.name), old(isoFiles), now), sizeText, ip)]
        && response.fields == UploadFields(IsoName(Basename(upload.value.name), old(isoFiles), now), upload.value.size))
      ensures Acceptable(upload) && (old(isoDirExists) || disk.mkdirOk) && disk.writable && disk.moveOk ==> response.Success?
      ensures response.Failure? ==> isoFiles == old(isoFiles) && activity == old(activity)
    {
      if upload.None? || upload.value.error != UploadErrOk {
        return Failure(500, "No file uploaded or upload error occurred");
      }
      var file := upload.value;
      if ToLower(Extension(Basename(file.name))) != "iso" {
        return Failure(500, "Invalid file type. Only .iso files are allowed.");
      }
      if file.size > MaxIsoSize {
        return Failure(500, "File size too large. Maximum size is 20GB.");
      }
      response := Store(file, disk, now, userId, ip, sizeText);
    }

    /** The part of upload_iso after validation: directory, name, move and activity row. */
    method Store(file: Upload, disk: Disk, now: int, userId: int, ip: string, sizeText: string)
      returns (response: Response)
      modifies this
      ensures response.Success? ==> (isoDirExists
        && isoFiles == old(isoFiles) + {IsoName(Basename(file.name), old(isoFiles), now)}
        && activity == old(activity) + [UploadActivity(userId, IsoName(Basename(file.name), old(isoFiles), now), sizeText, ip)]
        && response.fields == UploadFields(IsoName(Basename(file.name), old(isoFiles), now), file.size))
      ensures (old(isoDirExists) || disk.mkdirOk) && disk.writable && disk.moveOk <==> response.Success?
      ensures !old(isoDirExists) && !disk.mkdirOk ==> response == Failure(500, "Failed to create ISO directory")
      ensures (old(isoDirExists) || disk.mkdirOk) && !disk.writable ==>
        response == Failure(500, "ISO directory is not writable. Please check permissions on: " + IsoDir)
      ensures (old(isoDirExists) || disk.mkdirOk) && disk.writable && !disk.moveOk ==>
        response == Failure(500, MoveFailure(disk.lastError, disk.writable))
      ensures response.Failure? ==> isoFiles == old(isoFiles) && activity == old(activity)
    {
      var failure := PrepareDir(disk);
      if failure.Some? {
        return failure.value;
      }
      response := Place(file, disk, now, userId, ip, sizeText);
    }

    /** The ISO directory: created when missing, then checked for writing. */
    method PrepareDir(disk: Disk) returns (failure: Option<Response>)
      modifies this`isoDirExists
      ensures isoDirExists == (old(isoDirExists) || disk.mkdirOk)
      ensures !old(isoDirExists) && !disk.mkdirOk ==> failure == Some(Failure(500, "Failed to create ISO directory"))
      ensures (old(isoDirExists) || disk.mkdirOk) && !disk.writable ==>
        failure == Some(Failure(500, "ISO directory is not writable. Please check permissions on: " + IsoDir))
      ensures (old(isoDirExists) || disk.mkdirOk) && disk.writable ==> failure.None?
    {
      if !isoDirExists {
        if !disk.mkdirOk {
          return Some(Failure(500, "Failed to create ISO directory"));
        }
        isoDirExists := true;
      }
      if !disk.writable {
        return Some(Failure(500, "ISO directory is not writable. Please check permissions on: " + IsoDir));
      }
      return None;
    }

    /** The stored name (renamed when taken), the move and the activity row. */
    method Place(file: Upload, disk: Disk, now: int, userId: int, ip: string, sizeText: string)
      returns (response: Response)
      modifies this`isoFiles, this`activity
      ensures var name := IsoName(Basename(file.name), old(isoFiles), now);
        disk.moveOk ==> (response == Success(UploadFields(name, file.size))
          && isoFiles == old(isoFiles) + {name}
          && activity == old(activity) + [UploadActivity(userId, name, sizeText, ip)])
      ensures !disk.moveOk ==> (response == Failure(500, MoveFailure(disk.lastError, disk.writable))
        && isoFiles == old(isoFiles) && activity == old(activity))
    {
      var safe := Sanitize(Basename(file.name));
      if safe in isoFiles {
        safe := UniqueName(safe, now);
      }
      if !disk.moveOk {
        return Failure(500, MoveFailure(disk.lastError, disk.writable));
      }
      isoFiles := isoFiles + {safe};
      activity := activity + [UploadActivity(userId, safe, sizeText, ip)];
      return Success(UploadFields(safe, file.size));
    }

    /**
     * The whole request: 401 unless logged in, then the switch on the
     * action taken from the body, else the query string.
     */
    method Handle(loggedIn: bool, bodyAction: Option<Scalar>, queryAction: Option<Scalar>,
                  upload: Option<Upload>, disk: Disk, now: int, sizeText: string,
                  vm: Action -> Outcome, name: string, force: bool, userId: int, ip: string)
      returns (response: Response)
      modifies this
      ensures !loggedIn ==> response == Failure(401, "Unauthorized") && Same()
      ensures loggedIn && Selected(RequestAction(bodyAction, queryAction)) != Some("upload_iso") ==>
        isoFiles == old(isoFiles) && isoDirExists == old(isoDirExists)
      ensures loggedIn && Selected(RequestAction(bodyAction, queryAction)).None? ==>
        response == Failure(200, "Invalid action") && Same()
    {
      if !loggedIn {
        return Failure(401, "Unauthorized");
      }
      var selected := Selected(RequestAction(bodyAction, queryAction));
      if selected == Some("upload_iso") {
        response := UploadIso(upload, disk, now, userId, ip, sizeText);
      } else {
        response := Dispatch(if selected.Some? then selected.value else "", vm, name, force, userId, ip);
      }
    }

    /** Nothing but possibly the directory's existence has changed. */
    twostate predicate Same()
      reads this
    {
      isoFiles == old(isoFiles) && activity == old(activity) && isoDirExists == old(isoDirExists)
    }

    /**
     * Dispatch against the VM class as written: every backup action
     * answers 500 with the undefined-method Error and writes no activity.
     */
    method DispatchAsWritten(action: string, vm: Action -> Outcome, name: string, force: bool, userId: int, ip: string)
      returns (response: Response)
      modifies this`activity
      ensures ActionOf(action).Some? && IsBackupAction(ActionOf(action).value) ==>
        response == Failure(500, "Server error: " + UndefinedMethod(ActionOf(action).value))
        && activity == old(activity)
      ensures ActionOf(action).Some? && !IsBackupAction(ActionOf(action).value) && vm(ActionOf(action).value).Returned? ==>
        var a := ActionOf(action).value;
        var row := ActivityFor(a, name, force);
        response == Success(ReplyFields(a, vm(a).payload))
        && activity == old(activity) + (if row.Some? then [Activity(userId, row.value.0, row.value.1, ip)] else [])
    {
      var call := ClassAsWritten(vm);
      var a := ActionOf(action);
      if a.Some? && IsBackupAction(a.value) {
        BackupActionsFail(a.value, vm);
      }
      response := Dispatch(action, call, name, force, userId, ip);
    }

    /**
     * Any other action: an unknown one fails; a known one calls the VM
     * class, and a call that throws gives 500 with its message; a
     * successful state-changing call writes its activity row.
     */
    method Dispatch(action: string, vm: Action -> Outcome, name: string, force: bool, userId: int, ip: string)
      returns (response: Response)
      modifies this`activity
      ensures ActionOf(action).None? ==> response == Failure(200, "Invalid action") && activity == old(activity)
      ensures ActionOf(action).Some? && !vm(ActionOf(action).value).Returned? ==>
        response == Thrown(vm(ActionOf(action).value)) && activity == old(activity)
      ensures ActionOf(action).Some? && vm(ActionOf(action).value).Returned? ==> (
        var a := ActionOf(action).value;
        var row := ActivityFor(a, name, force);
        response == Success(ReplyFields(a, vm(a).payload))
        && activity == old(activity) + (if row.Some? then [Activity(userId, row.value.0, row.value.1, ip)] else []))
    {
      var a := ActionOf(action);
      if a.None? {
        return Failure(200, "Invalid action");
      }
      var outcome := vm(a.value);
      if !outcome.Returned? {
        return Thrown(outcome);
      }
      var row := ActivityFor(a.value, name, force);
      if row.Some? {
        activity := activity + [Activity(userId, row.value.0, row.value.1, ip)];
      }
      response := Success(ReplyFields(a.value, outcome.payload));
    }
  }

  /**
   * The name an upload is stored under: the sanitised base name, or, when
   * a file of that name exists, the renamed one.
   */
  function IsoName(base: string, existing: set<string>, now: int): (r: string)
    ensures Sanitize(base) !in existing ==> r == Sanitize(base)
    ensures Sanitize(base) in existing ==> HasPrefix(r, Stem(Sanitize(base)) + "_" + IntToString(now))
  {
    var safe := Sanitize(base);
    if safe in existing then UniqueName(safe, now) else safe
  }

  /** The stored name, renamed or not, keeps the uploaded name's extension, which reads "iso" in lower case. */
  lemma IsoNameExtension(base: string, existing: set<string>, now: int)
    requires ToLower(Extension(base)) == "iso"
    ensures Extension(IsoName(base, existing, now)) == Extension(base)
  {
    var safe := Sanitize(base);
    SanitizeExtension(base);
    IsoExtensionSafe(Extension(base));
    if safe in existing {
      UniqueNameExtension(safe, now);
    }
  }

  /** The sanitised name is as long as the base name and entirely safe. */
  lemma {:induction false} SafeNameChars(base: string)
    ensures |Sanitize(base)| == |base| && forall i :: 0 <= i < |base| ==> SafeChar(Sanitize(base)[i])
    ensures forall i :: 0 <= i < |base| ==> Sanitize(base)[i] == if SafeChar(base[i]) then base[i] else '_'
    decreases |base|
  {
    if base != [] {
      SafeNameChars(base[..|base| - 1]);
    }
  }
}
