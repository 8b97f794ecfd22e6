/**
 * Samba shares in the Go backend (go-backend/shares.go): the user lists
 * derived from share_permissions, the smb.conf text written from the active
 * shares, and the row changes made by the create, update and toggle handlers.
 */
module Shares {
  import opened Text

  const ShareBasePath: string := "/srv/samba"

  /** The Share struct the renderer reads. */
  datatype Share = Share(
    shareName: string, displayName: string, path: string, comment: string,
    browseable: bool, readonly: bool, guestOk: bool, caseSensitive: string,
    preserveCase: bool, shortPreserveCase: bool,
    validUsers: string, writeList: string, readList: string, adminUsers: string,
    createMask: string, directoryMask: string, forceUser: string, forceGroup: string,
    isActive: bool)

  // ---------------------------------------------------------------- permission lists

  /** One row of the share_permissions join: a user name and its level. */
  datatype Grant = Grant(username: string, level: string)

  /** The four user lists of a share. */
  datatype UserLists = UserLists(valid: seq<string>, read: seq<string>, write: seq<string>, admin: seq<string>)

  /** The lists updateSharePermissions builds, one grant at a time. */
  function Classify(grants: seq<Grant>): UserLists
    decreases |grants|
  {
    if grants == [] then UserLists([], [], [], [])
    else
      var prev := Classify(grants[..|grants| - 1]);
      var g := grants[|grants| - 1];
      var valid := prev.valid + [g.username];
      if g.level == "admin" then UserLists(valid, prev.read, prev.write + [g.username], prev.admin + [g.username])
      else if g.level == "write" then UserLists(valid, prev.read, prev.write + [g.username], prev.admin)
      else UserLists(valid, prev.read + [g.username], prev.write, prev.admin)
  }

  predicate HasGrant(grants: seq<Grant>, u: string, level: string) {
    exists k :: 0 <= k < |grants| && grants[k].username == u && grants[k].level == level
  }

  predicate HasOtherGrant(grants: seq<Grant>, u: string) {
    exists k :: 0 <= k < |grants| && grants[k].username == u && grants[k].level != "admin" && grants[k].level != "write"
  }

  /** Every user is valid, in grant order. */
  lemma {:induction false} ClassifyValid(grants: seq<Grant>)
    ensures |Classify(grants).valid| == |grants|
    ensures forall k :: 0 <= k < |grants| ==> Classify(grants).valid[k] == grants[k].username
    decreases |grants|
  {
    if grants != [] {
      ClassifyValid(grants[..|grants| - 1]);
    }
  }

  /**
   * Admin users are exactly the admin grants, the write list the admin and
   * write grants, and the read list every other level.
   */
  lemma {:induction false} ClassifyMembers(grants: seq<Grant>)
    ensures forall u :: u in Classify(grants).admin <==> HasGrant(grants, u, "admin")
    ensures forall u :: u in Classify(grants).write <==> HasGrant(grants, u, "admin") || HasGrant(grants, u, "write")
    ensures forall u :: u in Classify(grants).read <==> HasOtherGrant(grants, u)
    decreases |grants|
  {
    if grants != [] {
      var init := grants[..|grants| - 1];
      var g := grants[|grants| - 1];
      ClassifyMembers(init);
      assert grants == init + [g];
      HasGrantSnoc(init, g);
    }
  }

  /** The grants with one more: a user holds a level iff it did before or the new grant gives it. */
  lemma HasGrantSnoc(init: seq<Grant>, g: Grant)
    ensures forall u, level :: HasGrant(init + [g], u, level) <==> HasGrant(init, u, level) || (g.username == u && g.level == level)
    ensures forall u :: HasOtherGrant(init + [g], u) <==>
      HasOtherGrant(init, u) || (g.username == u && g.level != "admin" && g.level != "write")
  {
    var grants := init + [g];
    forall u, level | HasGrant(grants, u, level)
      ensures HasGrant(init, u, level) || (g.username == u && g.level == level)
    {
      var k :| 0 <= k < |grants| && grants[k].username == u && grants[k].level == level;
      if k < |init| {
        assert init[k] == grants[k];
      }
    }
    forall u, level | HasGrant(init, u, level)
      ensures HasGrant(grants, u, level)
    {
      var k :| 0 <= k < |init| && init[k].username == u && init[k].level == level;
      assert grants[k] == init[k];
    }
    assert HasGrant(grants, g.username, g.level) by {
      assert grants[|grants| - 1] == g;
    }
    forall u | HasOtherGrant(grants, u)
      ensures HasOtherGrant(init, u) || (g.username == u && g.level != "admin" && g.level != "write")
    {
      var k :| 0 <= k < |grants| && grants[k].username == u && grants[k].level != "admin" && grants[k].level != "write";
      if k < |init| {
        assert init[k] == grants[k];
      }
    }
    forall u | HasOtherGrant(init, u)
      ensures HasOtherGrant(grants, u)
    {
      var k :| 0 <= k < |init| && init[k].username == u && init[k].level != "admin" && init[k].level != "write";
      assert grants[k] == init[k];
    }
    if g.level != "admin" && g.level != "write" {
      assert HasOtherGrant(grants, g.username) by {
        assert grants[|grants| - 1] == g;
      }
    }
  }

  /** Each grant lands in exactly one of the read and write lists; admins are a part of the writers. */
  lemma {:induction false} ClassifyCounts(grants: seq<Grant>)
    ensures |Classify(grants).read| + |Classify(grants).write| == |grants|
    ensures |Classify(grants).admin| <= |Classify(grants).write|
    decreases |grants|
  {
    if grants != [] {
      ClassifyCounts(grants[..|grants| - 1]);
    }
  }

  /** The row loop of updateSharePermissions. */
  method CollectPermissions(grants: seq<Grant>) returns (lists: UserLists)
    ensures lists == Classify(grants)
  {
    var validUsers, readList, writeList, adminUsers := [], [], [], [];
    for i := 0 to |grants|
      invariant UserLists(validUsers, readList, writeList, adminUsers) == Classify(grants[..i])
    {
      assert grants[..i + 1][..i] == grants[..i];
      var username, level := grants[i].username, grants[i].level;
      validUsers := validUsers + [username];
      if level == "admin" {
        adminUsers := adminUsers + [username];
        writeList := writeList + [username];
      } else if level == "write" {
        writeList := writeList + [username];
      } else {
        readList := readList + [username];
      }
    }
    assert grants[..|grants|] == grants;
    lists := UserLists(validUsers, readList, writeList, adminUsers);
  }

  /** A comma-joined column read back with a comma split gives the list again. */
  lemma StoredListReadsBack(users: seq<string>)
    requires users != []
    requires forall k :: 0 <= k < |users| ==> ',' !in users[k]
    ensures Split(Join(users, ","), ',') == users
  {
    SplitJoin(users, ',');
  }

  // ---------------------------------------------------------------- smb.conf

  function YesNo(b: bool): string { if b then "yes" else "no" }

  /** The fixed [global] block, ending in a blank line. */
  const GlobalBlock: string := "[global]\n   workgroup = WORKGROUP\n   server string = Samba Server\n   netbios name = SERVER\n   security = user\n   map to guest = bad user\n   dns proxy = no\n\n"

  /** The settings a share section can carry, in smb.conf spelling by KeyName. */
  datatype Key =
    | Comment | Path | Browseable | ReadOnly | GuestOk | CaseSensitive | PreserveCase
    | ShortPreserveCase | ValidUsers | WriteList | ReadList | AdminUsers | CreateMask
    | DirectoryMask | ForceUser | ForceGroup

  function KeyName(k: Key): (r: string)
    ensures '\n' !in r
  {
    match k
    case Comment => "comment"
    case Path => "path"
    case Browseable => "browseable"
    case ReadOnly => "read only"
    case GuestOk => "guest ok"
    case CaseSensitive => "case sensitive"
    case PreserveCase => "preserve case"
    case ShortPreserveCase => "short preserve case"
    case ValidUsers => "valid users"
    case WriteList => "write list"
    case ReadList => "read list"
    case AdminUsers => "admin users"
    case CreateMask => "create mask"
    case DirectoryMask => "directory mask"
    case ForceUser => "force user"
    case ForceGroup => "force group"
  }

  /** One "key = value" setting of a share section. */
  datatype Entry = Entry(key: Key, value: string)

  /** The setting line as written: three spaces of indent, the key, " = " and the value. */
  function EntryLine(e: Entry): string { "   " + KeyName(e.key) + " = " + e.value }

  function EntryLines(es: seq<Entry>): (r: seq<string>)
    ensures |r| == |es| && forall i :: 0 <= i < |es| ==> r[i] == EntryLine(es[i])
  {
    seq(|es|, i requires 0 <= i < |es| => EntryLine(es[i]))
  }

  /** What a reader of the section finds for key: the value of its first setting with that key. */
  function Lookup(es: seq<Entry>, key: Key): Option<string>
    decreases |es|
  {
    if es == [] then None
    else if es[0].key == key then Some(es[0].value)
    else Lookup(es[1..], key)
  }

  lemma {:induction false} LookupAppend(a: seq<Entry>, b: seq<Entry>, key: Key)
    ensures Lookup(a + b, key) == if Lookup(a, key).Some? then Lookup(a, key) else Lookup(b, key)
    decreases |a|
  {
    if a != [] {
      assert (a + b)[1..] == a[1..] + b;
      LookupAppend(a[1..], b, key);
    } else {
      assert a + b == b;
    }
  }

  /** A key no setting carries is not found. */
  lemma {:induction false} LookupAbsent(es: seq<Entry>, key: Key)
    requires forall i :: 0 <= i < |es| ==> es[i].key != key
    ensures Lookup(es, key) == None
    decreases |es|
  {
    if es != [] {
      LookupAbsent(es[1..], key);
    }
  }

  /** The first setting with a key is what a reader finds. */
  lemma {:induction false} LookupAt(es: seq<Entry>, i: nat)
    requires i < |es|
    requires forall j :: 0 <= j < i ==> es[j].key != es[i].key
    ensures Lookup(es, es[i].key) == Some(es[i].value)
  {
    if i > 0 {
      LookupAt(es[1..], i - 1);
    }
  }

  /** Looking past five leading settings. */
  lemma LookupFive(head: seq<Entry>, rest: seq<Entry>, key: Key)
    requires |head| == 5
    ensures Lookup(head + rest, key) ==
      if head[0].key == key then Some(head[0].value) else if head[1].key == key then Some(head[1].value)
      else if head[2].key == key then Some(head[2].value) else if head[3].key == key then Some(head[3].value)
      else if head[4].key == key then Some(head[4].value) else Lookup(rest, key)
  {
    var es := head + rest;
    assert es[1..][1..] == es[2..] && es[2..][1..] == es[3..] && es[3..][1..] == es[4..] && es[4..][1..] == es[5..] == rest;
    assert Lookup(es, key) == if head[0].key == key then Some(head[0].value) else Lookup(es[1..], key);
    assert Lookup(es[1..], key) == if head[1].key == key then Some(head[1].value) else Lookup(es[2..], key);
    assert Lookup(es[2..], key) == if head[2].key == key then Some(head[2].value) else Lookup(es[3..], key);
    assert Lookup(es[3..], key) == if head[3].key == key then Some(head[3].value) else Lookup(es[4..], key);
    assert Lookup(es[4..], key) == if head[4].key == key then Some(head[4].value) else Lookup(rest, key);
  }

  /** The settings of one share's section, in the order they are written. */
  function SectionEntries(s: Share): seq<Entry> {
    FixedEntries(s) + ListEntries(s)
  }

  /** The comment, the path and the three yes/no flags, always written. */
  function FixedEntries(s: Share): seq<Entry> {
    [Entry(Comment, s.comment), Entry(Path, s.path), Entry(Browseable, YesNo(s.browseable)),
     Entry(ReadOnly, YesNo(s.readonly)), Entry(GuestOk, YesNo(s.guestOk))]
  }

  /** Valid users and the write list, each only when non-empty. */
  function ListEntries(s: Share): seq<Entry> {
    (if s.validUsers != "" then [Entry(ValidUsers, s.validUsers)] else [])
    + (if s.writeList != "" then [Entry(WriteList, s.writeList)] else [])
  }

  /** The lines of one share's section: the [name] header, the settings and a blank line. */
  function SectionLines(s: Share): seq<string> {
    ["[" + s.shareName + "]"] + EntryLines(SectionEntries(s)) + [""]
  }

  function ShareLines(shares: seq<Share>): seq<string>
    decreases |shares|
  {
    if shares == [] then [] else ShareLines(shares[..|shares| - 1]) + SectionLines(shares[|shares| - 1])
  }

  /** The whole smb.conf text for the given shares. */
  function SambaConfig(shares: seq<Share>): string {
    GlobalBlock + Lines(ShareLines(shares))
  }

  /** updateSambaConfig's text: the global block, then one section per share row. */
  method RenderSambaConfig(shares: seq<Share>) returns (config: string)
    ensures config == SambaConfig(shares)
  {
    var sections := "";
    for i := 0 to |shares|
      invariant sections == Lines(ShareLines(shares[..i]))
    {
      LinesSnoc(shares, i);
      sections := sections + Lines(SectionLines(shares[i]));
    }
    assert shares[..|shares|] == shares;
    config := GlobalBlock + sections;
  }

  /** One more share adds its section's text at the end. */
  lemma LinesSnoc(shares: seq<Share>, i: nat)
    requires i < |shares|
    ensures Lines(ShareLines(shares[..i + 1])) == Lines(ShareLines(shares[..i])) + Lines(SectionLines(shares[i]))
  {
    assert shares[..i + 1][..i] == shares[..i];
    LinesAppend(ShareLines(shares[..i]), SectionLines(shares[i]));
  }

  /** The text fields of a share that are written contain no line break. */
  predicate SingleLine(s: Share) {
    '\n' !in s.shareName && '\n' !in s.comment && '\n' !in s.path
    && '\n' !in s.validUsers && '\n' !in s.writeList
  }

  lemma EntryLinesSingle(es: seq<Entry>)
    requires forall i :: 0 <= i < |es| ==> '\n' !in es[i].value
    ensures forall i :: 0 <= i < |es| ==> '\n' !in EntryLine(es[i])
  {
    forall i | 0 <= i < |es|
      ensures '\n' !in EntryLine(es[i])
    {
      var k := KeyName(es[i].key);
      assert EntryLine(es[i]) == "   " + k + " = " + es[i].value;
    }
  }

  lemma SectionSingle(s: Share)
    requires SingleLine(s)
    ensures forall i :: 0 <= i < |SectionLines(s)| ==> '\n' !in SectionLines(s)[i]
  {
    EntryLinesSingle(SectionEntries(s));
    assert '\n' !in "[" + s.shareName + "]";
  }

  lemma {:induction false} ShareLinesSingle(shares: seq<Share>)
    requires forall k :: 0 <= k < |shares| ==> SingleLine(shares[k])
    ensures forall i :: 0 <= i < |ShareLines(shares)| ==> '\n' !in ShareLines(shares)[i]
    decreases |shares|
  {
    if shares != [] {
      ShareLinesSingle(shares[..|shares| - 1]);
      SectionSingle(shares[|shares| - 1]);
    }
  }

  /**
   * After the global block, the configuration read back line by line is each
   * share's section in the order of the rows.
   */
  lemma ConfigReadsBack(shares: seq<Share>)
    requires forall k :: 0 <= k < |shares| ==> SingleLine(shares[k])
    ensures GlobalBlock <= SambaConfig(shares)
    ensures Split(SambaConfig(shares)[|GlobalBlock|..], '\n') == ShareLines(shares) + [""]
  {
    ShareLinesSingle(shares);
    SplitLines(ShareLines(shares));
    assert SambaConfig(shares)[|GlobalBlock|..] == Lines(ShareLines(shares));
  }

  /** The zero value of the Share struct: what a row that is never scanned leaves behind. */
  const ZeroShare: Share := Share("", "", "", "", false, false, false, "", false, false, "", "", "", "", "", "", "", "", false)

  /**
   * updateSambaConfig as written: the loop over the active rows never
   * scans them, so each row contributes a zero-valued Share.
   */
  function SambaConfigAsWritten(activeRows: nat): (config: string)
    ensures GlobalBlock <= config
    ensures activeRows == 0 ==> config == GlobalBlock
    ensures activeRows > 0 ==> Split(config[|GlobalBlock|..], '\n')[0] == "[]"
  {
    var zeros := seq(activeRows, _ => ZeroShare);
    ConfigReadsBack(zeros);
    if activeRows > 0 then
      ShareLinesHead(zeros);
      SambaConfig(zeros)
    else
      SambaConfig(zeros)
  }

  /** The first line the sections give is the first share's header. */
  lemma {:induction false} ShareLinesHead(shares: seq<Share>)
    requires shares != []
    ensures |ShareLines(shares)| > 0 && ShareLines(shares)[0] == "[" + shares[0].shareName + "]"
    decreases |shares|
  {
    var init := shares[..|shares| - 1];
    if init != [] {
      ShareLinesHead(init);
      assert init[0] == shares[0];
    }
  }

  /**
   * With one active share, the text as written holds a section named `[]`
   * with an empty path and every flag "no", where the share's own section
   * was meant.
   */
  lemma EmptySectionsWritten(s: Share)
    requires SingleLine(s) && s.shareName != ""
    ensures Split(SambaConfigAsWritten(1)[|GlobalBlock|..], '\n')[0] == "[]"
    ensures Split(SambaConfig([s])[|GlobalBlock|..], '\n')[0] == "[" + s.shareName + "]"
    ensures SambaConfigAsWritten(1) != SambaConfig([s])
    ensures Lookup(SectionEntries(ZeroShare), Path) == Some("")
    ensures Lookup(SectionEntries(ZeroShare), Browseable) == Some("no")
    ensures Lookup(SectionEntries(ZeroShare), ReadOnly) == Some("no")
    ensures Lookup(SectionEntries(ZeroShare), GuestOk) == Some("no")
  {
    var zeros: seq<Share> := seq(1, _ => ZeroShare);
    assert zeros == [ZeroShare];
    assert SingleLine(ZeroShare);
    ConfigReadsBack(zeros);
    ConfigReadsBack([s]);
    assert [s][..0] == [] && zeros[..0] == [];
    assert ShareLines([s]) == SectionLines(s);
    assert ShareLines(zeros) == SectionLines(ZeroShare);
    assert |"[" + s.shareName + "]"| != |"[]"|;
    SectionFixedSettings(ZeroShare);
  }

  /** A section's settings give the comment, the path and the three yes/no flags. */
  lemma SectionFixedSettings(s: Share)
    ensures Lookup(SectionEntries(s), Comment) == Some(s.comment)
    ensures Lookup(SectionEntries(s), Path) == Some(s.path)
    ensures Lookup(SectionEntries(s), Browseable) == Some(YesNo(s.browseable))
    ensures Lookup(SectionEntries(s), ReadOnly) == Some(YesNo(s.readonly))
    ensures Lookup(SectionEntries(s), GuestOk) == Some(YesNo(s.guestOk))
  {
    var fixed := FixedEntries(s);
    LookupFive(fixed, ListEntries(s), Comment);
    LookupFive(fixed, ListEntries(s), Path);
    LookupFive(fixed, ListEntries(s), Browseable);
    LookupFive(fixed, ListEntries(s), ReadOnly);
    LookupFive(fixed, ListEntries(s), GuestOk);
  }

  /** Past the five fixed settings, a reader looks in the user lists. */
  lemma LookupPastFixed(s: Share, key: Key)
    requires key !in {Comment, Path, Browseable, ReadOnly, GuestOk}
    ensures Lookup(SectionEntries(s), key) == Lookup(ListEntries(s), key)
  {
    LookupFive(FixedEntries(s), ListEntries(s), key);
  }

  /**
   * Valid users and the write list are there only when non-empty; a read
   * list or admin users never are.
   */
  lemma SectionListSettings(s: Share)
    ensures Lookup(SectionEntries(s), ValidUsers) == (if s.validUsers != "" then Some(s.validUsers) else None)
    ensures Lookup(SectionEntries(s), WriteList) == (if s.writeList != "" then Some(s.writeList) else None)
    ensures Lookup(SectionEntries(s), ReadList) == None
    ensures Lookup(SectionEntries(s), AdminUsers) == None
  {
    var valid := if s.validUsers != "" then [Entry(ValidUsers, s.validUsers)] else [];
    var write := if s.writeList != "" then [Entry(WriteList, s.writeList)] else [];
    LookupPastFixed(s, ValidUsers);
    LookupPastFixed(s, WriteList);
    LookupPastFixed(s, ReadList);
    LookupPastFixed(s, AdminUsers);
    LookupAppend(valid, write, ValidUsers);
    LookupAppend(valid, write, WriteList);
    LookupAppend(valid, write, ReadList);
    LookupAppend(valid, write, AdminUsers);
  }

  // ---------------------------------------------------------------- the shares and share_users tables

  /** A table row, column by column. */
  type Row = map<string, Scalar>

  /** Reads a column; a missing one reads as NULL. */
  function Column(row: Row, name: string): Scalar {
    if name in row then row[name] else Null
  }

  /** The columns UpdateShareHandler lets a request change: every column except id, share_name and the bookkeeping ones. */
  const UpdatableColumns: set<string> := {
    "display_name", "path", "comment", "browseable", "readonly", "guest_ok", "case_sensitive",
    "preserve_case", "short_preserve_case", "valid_users", "write_list", "read_list", "admin_users",
    "create_mask", "directory_mask", "force_user", "force_group", "is_active"}

  /** The part of an update request that is written. */
  function AllowedChanges(req: map<string, Scalar>): map<string, Scalar> {
    map k | k in req && k in UpdatableColumns :: req[k]
  }

  /** An update changes no column outside the allow-list, share_name in particular. */
  lemma UpdateKeepsOtherColumns(row: Row, req: map<string, Scalar>)
    ensures forall c :: c !in UpdatableColumns ==> Column(row + AllowedChanges(req), c) == Column(row, c)
    ensures forall c :: c in UpdatableColumns && c in req ==> Column(row + AllowedChanges(req), c) == req[c]
    ensures Column(row + AllowedChanges(req), "share_name") == Column(row, "share_name")
  {
    assert "share_name" !in UpdatableColumns;
  }

  /**
   * filepath.Join of a directory and one name, without the cleaning of ".."
   * and doubled slashes: an empty name leaves the directory as it is, any
   * other follows it after one slash.
   */
  function JoinPath(dir: string, name: string): (r: string)
    ensures dir <= r
    ensures name == "" <==> r == dir
    ensures name != "" ==> r[|dir|] == '/' && r[|dir| + 1..] == name
  {
    if name == "" then dir else dir + "/" + name
  }

  /** The row CreateShareHandler inserts for a decoded request. */
  function NewShareRow(req: Share, createdBy: Option<int>): Row {
    map[
      "share_name" := Str(req.shareName), "display_name" := Str(req.displayName),
      "path" := Str(if req.path == "" then JoinPath(ShareBasePath, req.shareName) else req.path),
      "comment" := Str(req.comment), "browseable" := Bool(req.browseable), "readonly" := Bool(req.readonly),
      "guest_ok" := Bool(req.guestOk), "case_sensitive" := Str(req.caseSensitive),
      "preserve_case" := Bool(req.preserveCase), "short_preserve_case" := Bool(req.shortPreserveCase),
      "valid_users" := Str(req.validUsers), "write_list" := Str(req.writeList),
      "read_list" := Str(req.readList), "admin_users" := Str(req.adminUsers),
      "create_mask" := Str(req.createMask), "directory_mask" := Str(req.directoryMask),
      "force_user" := Str(req.forceUser), "force_group" := Str(req.forceGroup),
      "is_active" := Bool(req.isActive),
      "created_by" := if createdBy.Some? then Int(createdBy.value) else Null]
  }

  /** Go's database/sql scan of a column into a bool: driver.Bool's conversion. */
  function ScanBool(v: Scalar): (r: Option<bool>)
    ensures v.Bool? ==> r == Some(v.b)
    ensures v.Null? ==> r == None
  {
    match v
    case Bool(b) => Some(b)
    case Int(i) => if i == 1 then Some(true) else if i == 0 then Some(false) else None
    case Str(t) =>
      if t in {"1", "t", "T", "TRUE", "true", "True"} then Some(true)
      else if t in {"0", "f", "F", "FALSE", "false", "False"} then Some(false)
      else None
    case Null => None
  }

  /** The row after ToggleShareHandler, or None when is_active cannot be read as a bool. */
  function Toggled(row: Row): (r: Option<Row>)
    ensures r.Some? <==> ScanBool(Column(row, "is_active")).Some?
    ensures r.Some? ==> ScanBool(Column(r.value, "is_active")) == Some(!ScanBool(Column(row, "is_active")).value)
    ensures r.Some? ==> forall c :: c != "is_active" ==> Column(r.value, c) == Column(row, c)
  {
    var current := ScanBool(Column(row, "is_active"));
    if current.None? then None else Some(row["is_active" := Bool(!current.value)])
  }

  /** Toggling twice gives the flag back, and the very row back when the flag was stored as a bool. */
  lemma ToggleTwice(row: Row)
    requires Toggled(row).Some?
    ensures Toggled(Toggled(row).value).Some?
    ensures ScanBool(Column(Toggled(Toggled(row).value).value, "is_active")) == ScanBool(Column(row, "is_active"))
    ensures Column(row, "is_active").Bool? ==> Toggled(Toggled(row).value).value == row
  {
    if Column(row, "is_active").Bool? {
      var b := Column(row, "is_active").b;
      assert Toggled(row).value == row["is_active" := Bool(!b)];
      assert Toggled(Toggled(row).value).value == row["is_active" := Bool(b)];
    }
  }

  /** A share_users row as the toggle handler reads it. */
  datatype ShareUser = ShareUser(username: string, isActive: Scalar)

  /** toggleSambaUser: smbpasswd -e to enable the account, -d to disable it. */
  function SambaToggleCommand(username: string, enable: bool): (argv: seq<string>)
    ensures |argv| == 4 && argv[..2] == ["sudo", "smbpasswd"] && argv[3] == username
    ensures argv[2] == "-e" <==> enable
    ensures argv[2] == "-d" <==> !enable
  {
    ["sudo", "smbpasswd", if enable then "-e" else "-d", username]
  }

  class ShareDatabase {
    var shares: map<int, Row>
    var users: map<int, ShareUser>
    var nextShareId: int

    ghost predicate Valid()
      reads this
    {
      forall id :: id in shares ==> id < nextShareId
    }

    constructor ()
      ensures Valid() && shares == map[] && users == map[]
    {
      shares := map[];
      users := map[];
      nextShareId := 1;
    }

    /**
     * CreateShareHandler: an undecodable body is 400; a failed insert is 400
     * with the database's message; otherwise the row is stored under a fresh
     * id, with the path defaulting to the share's directory under /srv/samba.
     */
    method CreateShare(req: Option<Share>, createdBy: Option<int>, insertError: Option<string>)
      returns (reply: Reply, shareId: Option<int>)
      requires Valid()
      modifies this`shares, this`nextShareId
      ensures Valid()
      ensures req.None? ==> reply == Reply(400, "Invalid request") && shareId == None && shares == old(shares)
      ensures req.Some? && insertError.Some? ==>
                reply == Reply(400, "Failed to create share: " + insertError.value) && shareId == None && shares == old(shares)
      ensures req.Some? && insertError.None? ==>
                reply == OK && shareId.Some? && shareId.value !in old(shares)
                && shares == old(shares)[shareId.value := NewShareRow(req.value, createdBy)]
      ensures req.Some? && insertError.None? && req.value.path == "" && req.value.shareName != "" ==>
                Column(shares[shareId.value], "path") == Str(ShareBasePath + "/" + req.value.shareName)
      ensures req.Some? && insertError.None? && req.value.path == "" && req.value.shareName == "" ==>
                Column(shares[shareId.value], "path") == Str(ShareBasePath)
    {
      if req.None? {
        return Reply(400, "Invalid request"), None;
      }
      if insertError.Some? {
        return Reply(400, "Failed to create share: " + insertError.value), None;
      }
      var id := nextShareId;
      shares := shares[id := NewShareRow(req.value, createdBy)];
      nextShareId := nextShareId + 1;
      return OK, Some(id);
    }

    /**
     * UpdateShareHandler: only allow-listed columns are written; a request
     * with none of them succeeds without a write; a failed write is 400. An
     * id with no row is a successful update of nothing.
     */
    method UpdateShare(id: int, req: Option<map<string, Scalar>>, execOk: bool) returns (reply: Reply)
      modifies this`shares
      ensures req.None? ==> reply == Reply(400, "Invalid request") && shares == old(shares)
      ensures req.Some? && AllowedChanges(req.value) == map[] ==> reply == OK && shares == old(shares)
      ensures req.Some? && AllowedChanges(req.value) != map[] && !execOk ==>
                reply == Reply(400, "Failed to update share") && shares == old(shares)
      ensures req.Some? && AllowedChanges(req.value) != map[] && execOk ==>
                reply == OK
                && shares == if id in old(shares) then old(shares)[id := old(shares)[id] + AllowedChanges(req.value)] else old(shares)
    {
      if req.None? {
        return Reply(400, "Invalid request");
      }
      var changes := AllowedChanges(req.value);
      if changes == map[] {
        return OK;
      }
      if !execOk {
        return Reply(400, "Failed to update share");
      }
      if id in shares {
        shares := shares[id := shares[id] + changes];
      }
      return OK;
    }

    /**
     * ToggleShareHandler: a missing row, or an is_active that does not read
     * as a bool, is 404; a failed write is 400; otherwise the negated flag is
     * stored and returned.
     */
    method ToggleShare(id: int, execOk: bool) returns (reply: Reply, isActive: Option<bool>)
      modifies this`shares
      ensures (id !in old(shares) || Toggled(old(shares)[id]).None?) ==>
                reply == Reply(404, "Share not found") && isActive == None && shares == old(shares)
      ensures id in old(shares) && Toggled(old(shares)[id]).Some? && !execOk ==>
                reply == Reply(400, "Failed to toggle share") && isActive == None && shares == old(shares)
      ensures id in old(shares) && Toggled(old(shares)[id]).Some? && execOk ==>
                reply == OK && shares == old(shares)[id := Toggled(old(shares)[id]).value]
                && isActive == Some(!ScanBool(Column(old(shares)[id], "is_active")).value)
    {
      if id !in shares || Toggled(shares[id]).None? {
        return Reply(404, "Share not found"), None;
      }
      var current := ScanBool(Column(shares[id], "is_active")).value;
      if !execOk {
        return Reply(400, "Failed to toggle share"), None;
      }
      shares := shares[id := shares[id]["is_active" := Bool(!current)]];
      return OK, Some(!current);
    }

    /**
     * updateSharePermissions: the four user lists of the share are rebuilt
     * from its permission rows and stored comma-joined.
     */
    method UpdateSharePermissions(shareId: int, grants: seq<Grant>)
      modifies this`shares
      ensures shareId !in old(shares) ==> shares == old(shares)
      ensures shareId in old(shares) ==>
                shares == old(shares)[shareId := old(shares)[shareId][
                  "valid_users" := Str(Join(Classify(grants).valid, ","))][
                  "read_list" := Str(Join(Classify(grants).read, ","))][
                  "write_list" := Str(Join(Classify(grants).write, ","))][
                  "admin_users" := Str(Join(Classify(grants).admin, ","))]]
    {
      var lists := CollectPermissions(grants);
      if shareId in shares {
        shares := shares[shareId := shares[shareId][
          "valid_users" := Str(Join(lists.valid, ","))][
          "read_list" := Str(Join(lists.read, ","))][
          "write_list" := Str(Join(lists.write, ","))][
          "admin_users" := Str(Join(lists.admin, ","))]];
      }
    }

    /**
     * ToggleShareUserHandler: a missing user or unreadable flag is 404, a
     * failed write 400; otherwise the flag is negated and smbpasswd is run
     * to enable or disable the account to match.
     */
    method ToggleShareUser(id: int, execOk: bool) returns (reply: Reply, isActive: Option<bool>, command: Option<seq<string>>)
      modifies this`users
      ensures (id !in old(users) || ScanBool(old(users)[id].isActive).None?) ==>
                reply == Reply(404, "User not found") && isActive == None && command == None && users == old(users)
      ensures id in old(users) && ScanBool(old(users)[id].isActive).Some? && !execOk ==>
                reply == Reply(400, "Failed to toggle user") && isActive == None && command == None && users == old(users)
      ensures id in old(users) && ScanBool(old(users)[id].isActive).Some? && execOk ==>
                var now := !ScanBool(old(users)[id].isActive).value;
                reply == OK && isActive == Some(now)
                && users == old(users)[id := old(users)[id].(isActive := Bool(now))]
                && command == Some(SambaToggleCommand(old(users)[id].username, now))
    {
      if id !in users || ScanBool(users[id].isActive).None? {
        return Reply(404, "User not found"), None, None;
      }
      var current := ScanBool(users[id].isActive).value;
      var username := users[id].username;
      if !execOk {
        return Reply(400, "Failed to toggle user"), None, None;
      }
      users := users[id := users[id].(isActive := Bool(!current))];
      return OK, Some(!current), Some(SambaToggleCommand(username, !current));
    }
  }
}
