/**
 * Samba shares in the PHP panel (src/Share.php): share name validation,
 * the boolean normalisation of create and update, the share, user and
 * permission table changes, and the smb.conf text rebuilt from the rows.
 *
 * Oracles: `dirReady` is is_dir or a successful mkdir on the share path,
 * `smbOk` the exit status of smbpasswd, `isRoot` the effective uid check,
 * `existing` the smb.conf text when the file exists, and `grants` the
 * rows getSharePermissions reads back after a permission write.
 */
module SharePhp {
  import opened Text
  import Shares

  /**
   * The columns of the shares table (share_name, display_name, path, ...,
   * is_active, created_by); a request array sets a column under the
   * column's own name, and keys that name no column are never read.
   */
  datatype Col =
    | ShareName | DisplayName | Path | Comment | Browseable | Readonly | GuestOk
    | CaseSensitive | PreserveCase | ShortPreserveCase | ValidUsers | WriteList | ReadList
    | AdminUsers | CreateMask | DirectoryMask | ForceUser | ForceGroup | IsActive | CreatedBy

  /** A row of the shares table, column by column. */
  type Row = map<Col, Scalar>

  /** Reads a column; a missing one reads as NULL. */
  function Get(row: Row, c: Col): Scalar {
    if c in row then row[c] else Null
  }

  /** The request array: the value given for each column it names. */
  type Request = map<Col, Scalar>

  /** `$data['column']`: the request's value for a column, NULL when absent. */
  function Arg(data: Request, c: Col): Scalar {
    if c in data then data[c] else Null
  }

  /** `$data['column'] ?? fallback`: the request's value when present and not null. */
  function OrElse(data: Request, c: Col, fallback: Scalar): (r: Scalar)
    ensures Arg(data, c) != Null ==> r == Arg(data, c)
    ensures Arg(data, c) == Null ==> r == fallback
  {
    if Arg(data, c) != Null then Arg(data, c) else fallback
  }

  // ---------------------------------------------------------------- share names

  predicate NameChar(c: char) {
    'a' <= c <= 'z' || 'A' <= c <= 'Z' || '0' <= c <= '9' || c == '_' || c == '-'
  }

  predicate NameChars(s: string) {
    |s| > 0 && forall i :: 0 <= i < |s| ==> NameChar(s[i])
  }

  /**
   * The pattern /^[a-zA-Z0-9_-]+$/ as PCRE evaluates it: without the D
   * modifier `$` also matches just before a final newline.
   */
  predicate NamePatternAsWritten(s: string)
    ensures ValidShareName(s) ==> NamePatternAsWritten(s)
    ensures NamePatternAsWritten(s) ==> s != [] && (s[|s| - 1] != '\n' ==> ValidShareName(s))
    ensures NamePatternAsWritten(s) ==> forall i :: 0 <= i < |s| - 1 ==> NameChar(s[i])
  {
    NameChars(s) || (|s| >= 2 && s[|s| - 1] == '\n' && NameChars(s[..|s| - 1]))
  }

  /** The intended test: one or more name characters and nothing else. */
  predicate ValidShareName(s: string) {
    NameChars(s)
  }

  /** The pattern as written lets a name with a trailing newline through, and that name breaks its section header. */
  lemma TrailingNewlineAccepted()
    ensures NamePatternAsWritten("docs\n") && !ValidShareName("docs\n")
    ensures '\n' in SectionHeader(Str("docs\n"))
  {
    assert ("docs\n")[..4] == "docs";
    assert SectionHeader(Str("docs\n"))[5] == '\n';
  }

  /** The pattern as written and the intended test agree on every name without a newline. */
  lemma NamePatternAgrees(s: string)
    ensures ValidShareName(s) ==> NamePatternAsWritten(s)
    ensures '\n' !in s ==> (NamePatternAsWritten(s) <==> ValidShareName(s))
  {
    if '\n' !in s && |s| >= 2 {
      assert s[|s| - 1] in s;
    }
  }

  /** A valid name keeps its section header on one line, with no bracket inside it. */
  lemma ValidNameHeader(s: string)
    requires ValidShareName(s)
    ensures '\n' !in SectionHeader(Str(s))
    ensures forall i :: 0 < i < |SectionHeader(Str(s))| - 1 ==> SectionHeader(Str(s))[i] !in "[]"
  {
    var h := SectionHeader(Str(s));
    forall i | 0 < i < |h| - 1
      ensures h[i] != '\n' && h[i] !in "[]"
    {
      assert h[i] == s[i - 1];
    }
  }

  // ---------------------------------------------------------------- boolean columns

  const FalseWords: set<string> := {"", "0", "false", "no"}

  /** create's $normalizeBool: a missing or empty value takes the default, false words are 0, anything else 1. */
  function NormalizeBool(v: Scalar, default: bool): (r: int)
    ensures r == 0 || r == 1
    ensures v == Null || v == Str("") ==> (r == 1 <==> default)
    ensures v.Bool? ==> (r == 1 <==> v.b)
    ensures v.Int? ==> (r == 1 <==> v.i != 0)
    ensures v.Str? && v.s != "" ==> (r == 0 <==> ToLower(PhpTrim(v.s)) in FalseWords)
  {
    match v
    case Null => if default then 1 else 0
    case Bool(b) => if b then 1 else 0
    case Int(i) => if i != 0 then 1 else 0
    case Str(s) =>
      if s == "" then (if default then 1 else 0)
      else if ToLower(PhpTrim(s)) in FalseWords then 0 else 1
  }

  /** update's $normalizeBool: as create's, except that null stays null and "" is 0. */
  function UpdateBool(v: Scalar): (r: Option<int>)
    ensures r.None? <==> v == Null
    ensures r.Some? ==> r.value == 0 || r.value == 1
    ensures v.Str? ==> r == Some(if ToLower(PhpTrim(v.s)) in FalseWords then 0 else 1)
  {
    match v
    case Null => None
    case Bool(b) => Some(if b then 1 else 0)
    case Int(i) => Some(if i != 0 then 1 else 0)
    case Str(s) => Some(if ToLower(PhpTrim(s)) in FalseWords then 0 else 1)
  }

  /**
   * The two normalisations agree on every value but null and "", where
   * create falls back to the column's default and update stores 0.
   */
  lemma NormalizeAgrees(v: Scalar, default: bool)
    ensures v != Null && v != Str("") ==> UpdateBool(v) == Some(NormalizeBool(v, default))
    ensures UpdateBool(Str("")) == Some(0)
    ensures NormalizeBool(Str(""), true) == 1
  {
    assert PhpTrim("") == "";
  }

  /** A normalised value normalises to itself, under either closure, and reads back with the same truthiness. */
  lemma NormalizeStable(v: Scalar, default: bool, default': bool)
    ensures NormalizeBool(Int(NormalizeBool(v, default)), default') == NormalizeBool(v, default)
    ensures UpdateBool(Int(NormalizeBool(v, default))) == Some(NormalizeBool(v, default))
    ensures Truthy(Int(NormalizeBool(v, default))) <==> NormalizeBool(v, default) == 1
  {
  }

  // ---------------------------------------------------------------- create

  const ShareBasePath: string := "/srv/samba"

  /** The six columns stored as 0 or 1. */
  predicate IsBooleanField(c: Col) {
    c.Browseable? || c.Readonly? || c.GuestOk? || c.PreserveCase? || c.ShortPreserveCase? || c.IsActive?
  }

  /** The boolean columns that default to on when create is not given them. */
  predicate DefaultOn(c: Col) {
    c.Browseable? || c.PreserveCase? || c.ShortPreserveCase? || c.IsActive?
  }

  /** The path create uses: the given one, else the name under the base directory. */
  function SharePath(data: Request): Scalar {
    OrElse(data, Path, Str(ShareBasePath + "/" + AsString(Arg(data, ShareName))))
  }

  /** Each column of the row create inserts: the given or default text, and the six flags normalised. */
  function NewValue(data: Request, createdBy: Option<int>, c: Col): Scalar {
    var name := Arg(data, ShareName);
    match c
    case ShareName => name
    case DisplayName => OrElse(data, DisplayName, name)
    case Path => SharePath(data)
    case Comment => OrElse(data, Comment, Str(""))
    case CaseSensitive => OrElse(data, CaseSensitive, Str("auto"))
    case ValidUsers => OrElse(data, ValidUsers, Str(""))
    case WriteList => OrElse(data, WriteList, Str(""))
    case ReadList => OrElse(data, ReadList, Str(""))
    case AdminUsers => OrElse(data, AdminUsers, Str(""))
    case CreateMask => OrElse(data, CreateMask, Str("0664"))
    case DirectoryMask => OrElse(data, DirectoryMask, Str("0775"))
    case ForceUser => OrElse(data, ForceUser, Null)
    case ForceGroup => OrElse(data, ForceGroup, Null)
    case CreatedBy => if createdBy.Some? then Int(createdBy.value) else Null
    case Browseable => NewFlag(data, c)
    case Readonly => NewFlag(data, c)
    case GuestOk => NewFlag(data, c)
    case PreserveCase => NewFlag(data, c)
    case ShortPreserveCase => NewFlag(data, c)
    case IsActive => NewFlag(data, c)
  }

  /** The row create inserts: every column set. */
  function NewShareRow(data: Request, createdBy: Option<int>): Row {
    map c: Col :: NewValue(data, createdBy, c)
  }

  /** One boolean column of a new row, normalised with its default. */
  function NewFlag(data: Request, f: Col): Scalar {
    Int(NormalizeBool(Arg(data, f), DefaultOn(f)))
  }

  /**
   * Each boolean column of a new row is 0 or 1, and one the request leaves
   * out is on exactly for browseable, the two case flags and is_active;
   * the path defaults to the name under /srv/samba.
   */
  lemma NewRowFlags(data: Request, createdBy: Option<int>)
    ensures forall f :: IsBooleanField(f) ==> Get(NewShareRow(data, createdBy), f) == NewFlag(data, f)
    ensures forall f :: IsBooleanField(f) ==> NewFlag(data, f) == Int(0) || NewFlag(data, f) == Int(1)
    ensures forall f :: IsBooleanField(f) && Arg(data, f) == Null ==>
              NewFlag(data, f) == Int(if DefaultOn(f) then 1 else 0)
    ensures Arg(data, Path) == Null && Arg(data, ShareName).Str? ==>
              Get(NewShareRow(data, createdBy), Path) == Str(ShareBasePath + "/" + Arg(data, ShareName).s)
  {
  }

  /** A share row whose share_name reads as the given name. */
  predicate Named(row: Row, name: string) {
    AsString(Get(row, ShareName)) == name
  }

  // ---------------------------------------------------------------- update

  /** The columns update may write, in the order it writes them: every one but share_name and created_by. */
  const AllowedFields: seq<Col> := [
    DisplayName, Path, Comment, Browseable, Readonly, GuestOk,
    CaseSensitive, PreserveCase, ShortPreserveCase,
    ValidUsers, WriteList, ReadList, AdminUsers,
    CreateMask, DirectoryMask, ForceUser, ForceGroup, IsActive]

  /** The value update binds for a set column: boolean ones normalised, others as given. */
  function Stored(c: Col, v: Scalar): (r: Scalar)
    requires v != Null
    ensures IsBooleanField(c) ==> r == Int(0) || r == Int(1)
    ensures !IsBooleanField(c) ==> r == v
  {
    if IsBooleanField(c) then Int(UpdateBool(v).value) else v
  }

  /** One `column = ?` clause of the UPDATE with its bound parameter. */
  datatype Assignment = Assign(col: Col, value: Scalar)

  /** isset: present and not null. */
  predicate IsSet(data: Request, c: Col) {
    Arg(data, c) != Null
  }

  /** The SET assignments update makes: each listed column that isset, in list order. */
  function ShareAssignments(data: Request, fields: seq<Col>): (r: seq<Assignment>)
    ensures |r| <= |fields|
  {
    if fields == [] then []
    else
      var head := if IsSet(data, fields[0]) then [Assign(fields[0], Stored(fields[0], Arg(data, fields[0])))] else [];
      head + ShareAssignments(data, fields[1..])
  }

  /** An assignment is made for a column iff it is listed and set, with the stored form of its value. */
  lemma {:induction false} ShareAssignmentsExact(data: Request, fields: seq<Col>)
    ensures forall a :: a in ShareAssignments(data, fields) ==>
              a.col in fields && IsSet(data, a.col) && a.value == Stored(a.col, Arg(data, a.col))
    ensures forall c :: c in fields && IsSet(data, c) ==> Assign(c, Stored(c, Arg(data, c))) in ShareAssignments(data, fields)
  {
    if fields != [] {
      ShareAssignmentsExact(data, fields[1..]);
      forall c | c in fields && IsSet(data, c)
        ensures Assign(c, Stored(c, Arg(data, c))) in ShareAssignments(data, fields)
      {
        if c != fields[0] {
          assert c in fields[1..];
        }
      }
    }
  }

  /** The columns on the allow-list: all but share_name and created_by. */
  predicate Allowed(c: Col) {
    !c.ShareName? && !c.CreatedBy?
  }

  lemma AllowedFieldsExact(c: Col)
    ensures c in AllowedFields <==> Allowed(c)
  {
    if c in AllowedFields {
      var i :| 0 <= i < |AllowedFields| && AllowedFields[i] == c;
    }
  }

  /** The columns an update writes, with the values it writes. */
  function Changes(data: Request): map<Col, Scalar> {
    map c: Col | Allowed(c) && IsSet(data, c) :: Stored(c, Arg(data, c))
  }

  /**
   * The assignment list and the column changes describe the same write, so
   * share_name and created_by are never written.
   */
  lemma ChangesMatchAssignments(data: Request)
    ensures forall a :: a in ShareAssignments(data, AllowedFields) <==> a.col in Changes(data) && a.value == Changes(data)[a.col]
    ensures ShareName !in Changes(data) && CreatedBy !in Changes(data)
  {
    ShareAssignmentsExact(data, AllowedFields);
    forall c: Col {
      AllowedFieldsExact(c);
    }
  }

  /** No assignment means no change, the case update answers with "No fields to update". */
  lemma NoAssignmentNoChange(data: Request)
    ensures ShareAssignments(data, AllowedFields) == [] <==> Changes(data) == map[]
  {
    ChangesMatchAssignments(data);
    if ShareAssignments(data, AllowedFields) != [] {
      assert ShareAssignments(data, AllowedFields)[0] in ShareAssignments(data, AllowedFields);
    }
    if Changes(data) != map[] {
      var c :| c in Changes(data);
      assert Assign(c, Changes(data)[c]) in ShareAssignments(data, AllowedFields);
    }
  }

  /** The foreach over the allow-list collecting `field = ?` clauses and their parameters. */
  method CollectAssignments(data: Request) returns (updates: seq<Assignment>)
    ensures updates == ShareAssignments(data, AllowedFields)
  {
    updates := CollectOver(data, AllowedFields);
  }

  /** The same loop over any list of columns. */
  method CollectOver(data: Request, fields: seq<Col>) returns (updates: seq<Assignment>)
    ensures updates == ShareAssignments(data, fields)
  {
    updates := [];
    var i := 0;
    while i < |fields|
      invariant 0 <= i <= |fields|
      invariant updates + ShareAssignments(data, fields[i..]) == ShareAssignments(data, fields)
    {
      var field := fields[i];
      SliceCons(fields, i);
      ghost var rest := ShareAssignments(data, fields[i + 1..]);
      if Arg(data, field) != Null {
        var value := if IsBooleanField(field) then Int(UpdateBool(Arg(data, field)).value) else Arg(data, field);
        assert ShareAssignments(data, fields[i..]) == [Assign(field, value)] + rest;
        AppendAssoc(updates, [Assign(field, value)], rest);
        updates := updates + [Assign(field, value)];
      } else {
        assert ShareAssignments(data, fields[i..]) == rest;
      }
      i := i + 1;
    }
  }

  // ---------------------------------------------------------------- permissions

  /** The lists updateSharePermissions builds: a level other than admin, write and read adds the user to valid users only. */
  function ClassifyPhp(grants: seq<Shares.Grant>): (r: Shares.UserLists)
    ensures |r.valid| == |grants|
    ensures |r.admin| <= |r.write|
    decreases |grants|
  {
    if grants == [] then Shares.UserLists([], [], [], [])
    else
      var prev := ClassifyPhp(grants[..|grants| - 1]);
      var g := grants[|grants| - 1];
      var valid := prev.valid + [g.username];
      if g.level == "admin" then Shares.UserLists(valid, prev.read, prev.write + [g.username], prev.admin + [g.username])
      else if g.level == "write" then Shares.UserLists(valid, prev.read, prev.write + [g.username], prev.admin)
      else if g.level == "read" then Shares.UserLists(valid, prev.read + [g.username], prev.write, prev.admin)
      else Shares.UserLists(valid, prev.read, prev.write, prev.admin)
  }

  /** The levels setPermission accepts. */
  const PermissionLevels: set<string> := {"read", "write", "admin"}

  predicate KnownLevels(grants: seq<Shares.Grant>) {
    forall i :: 0 <= i < |grants| ==> grants[i].level in PermissionLevels
  }

  /**
   * With only the three levels setPermission accepts, the PHP lists are
   * the Go handler's; every user is then on the read or the write list.
   */
  lemma {:induction false} ClassifyAgrees(grants: seq<Shares.Grant>)
    requires KnownLevels(grants)
    ensures ClassifyPhp(grants) == Shares.Classify(grants)
    ensures |ClassifyPhp(grants).read| + |ClassifyPhp(grants).write| == |grants|
    decreases |grants|
  {
    if grants != [] {
      var init := grants[..|grants| - 1];
      assert KnownLevels(init) by {
        forall i | 0 <= i < |init| ensures init[i].level in PermissionLevels {
          assert init[i] == grants[i];
        }
      }
      ClassifyAgrees(init);
      assert grants[|grants| - 1].level in PermissionLevels;
    }
    Shares.ClassifyCounts(grants);
  }

  /** A grant with an unknown level makes its user valid without putting it on any list, where Go would grant read. */
  lemma UnknownLevelOnlyValid(u: string)
    ensures ClassifyPhp([Shares.Grant(u, "owner")]) == Shares.UserLists([u], [], [], [])
    ensures Shares.Classify([Shares.Grant(u, "owner")]).read == [u]
  {
    assert [Shares.Grant(u, "owner")][..0] == [];
  }

  /** The foreach of updateSharePermissions. */
  method CollectPermissions(grants: seq<Shares.Grant>) returns (lists: Shares.UserLists)
    ensures lists == ClassifyPhp(grants)
  {
    var valid: seq<string> := [];
    var read: seq<string> := [];
    var write: seq<string> := [];
    var admin: seq<string> := [];
    for i := 0 to |grants|
      invariant Shares.UserLists(valid, read, write, admin) == ClassifyPhp(grants[..i])
    {
      var perm := grants[i];
      assert grants[..i + 1][..i] == grants[..i];
      valid := valid + [perm.username];
      if perm.level == "admin" {
        admin := admin + [perm.username];
        write := write + [perm.username];
      } else if perm.level == "write" {
        write := write + [perm.username];
      } else if perm.level == "read" {
        read := read + [perm.username];
      }
    }
    assert grants[..|grants|] == grants;
    lists := Shares.UserLists(valid, read, write, admin);
  }

  /** A share_permissions row's key. */
  datatype PermKey = PermKey(share: int, user: int)

  /** The row after updateSharePermissions: the four lists stored comma-joined, nothing else changed. */
  function WithLists(row: Row, lists: Shares.UserLists): Row {
    row[ValidUsers := Str(Join(lists.valid, ","))][ReadList := Str(Join(lists.read, ","))]
       [WriteList := Str(Join(lists.write, ","))][AdminUsers := Str(Join(lists.admin, ","))]
  }

  // ---------------------------------------------------------------- users

  /** The smbpasswd command line toggleSambaUser runs: the sudo prefix ("sudo " unless the panel runs as root) is followed by " smbpasswd", so the words are separated by one or two blanks. */
  function SmbToggleCommand(isRoot: bool, username: string, enable: bool): string {
    (if isRoot then "" else "sudo ") + SmbTail(username, enable)
  }

  /** The command text from the blank before smbpasswd on. */
  function SmbTail(username: string, enable: bool): string {
    " smbpasswd " + (if enable then "-e" else "-d") + " " + username + " 2>&1"
  }

  /** A leading blank does not change the words of a line. */
  lemma FieldsBlank(rest: string)
    ensures Fields(" " + rest) == Fields(rest)
  {
    assert IsSpace(GoSpace, (" " + rest)[0]);
    assert (" " + rest)[1..] == rest;
  }

  /** Four words joined by a separator. */
  lemma JoinFour(a: string, b: string, c: string, d: string, sep: string)
    ensures Join([a, b, c, d], sep) == a + sep + b + sep + c + sep + d
  {
    var words := [a, b, c, d];
    assert words[1..][1..][1..] == [d];
    assert words[1..][1..] == [c, d];
    assert words[1..] == [b, c, d];
    assert Join([c, d], sep) == c + sep + d;
    assert Join([b, c, d], sep) == b + sep + (c + sep + d);
  }

  /** None of the four words holds white space when the user name does not. */
  lemma TailWords(flag: string, username: string)
    requires flag == "-e" || flag == "-d"
    requires username != [] && forall i :: 0 <= i < |username| ==> !IsGoSpace(username[i])
    ensures var words := ["smbpasswd", flag, username, "2>&1"];
      forall k :: 0 <= k < |words| ==> words[k] != [] && forall i :: 0 <= i < |words[k]| ==> !IsGoSpace(words[k][i])
  {
  }

  /** The four words joined by blanks, after a leading blank, are read back as themselves. */
  lemma TailFields(flag: string, username: string)
    requires flag == "-e" || flag == "-d"
    requires username != [] && forall i :: 0 <= i < |username| ==> !IsGoSpace(username[i])
    ensures Fields(" " + Join(["smbpasswd", flag, username, "2>&1"], " ")) == ["smbpasswd", flag, username, "2>&1"]
  {
    var words := ["smbpasswd", flag, username, "2>&1"];
    TailWords(flag, username);
    FieldsJoin(words);
    FieldsBlank(Join(words, " "));
  }

  /** The command text after the sudo prefix is a blank followed by the four words joined by blanks. */
  lemma TailText(flag: string, username: string)
    ensures " smbpasswd " + flag + " " + username + " 2>&1" == " " + Join(["smbpasswd", flag, username, "2>&1"], " ")
  {
    JoinFour("smbpasswd", flag, username, "2>&1", " ");
  }

  /** The words after the sudo prefix: the Go handler's argument vector without sudo, then the redirection. */
  lemma ToggleTailWords(username: string, enable: bool)
    requires username != [] && forall i :: 0 <= i < |username| ==> !IsGoSpace(username[i])
    ensures Fields(SmbTail(username, enable)) == Shares.SambaToggleCommand(username, enable)[1..] + ["2>&1"]
  {
    var flag := if enable then "-e" else "-d";
    TailText(flag, username);
    TailFields(flag, username);
  }

  /** The words the shell runs for a user name without white space: the Go handler's argument vector (without sudo when the panel runs as root), then the redirection. */
  lemma ToggleCommandAgrees(username: string, enable: bool)
    requires username != [] && forall i :: 0 <= i < |username| ==> !IsGoSpace(username[i])
    ensures Fields(SmbToggleCommand(false, username, enable)) == Shares.SambaToggleCommand(username, enable) + ["2>&1"]
    ensures Fields(SmbToggleCommand(true, username, enable)) == Shares.SambaToggleCommand(username, enable)[1..] + ["2>&1"]
  {
    var tail := SmbTail(username, enable);
    ToggleTailWords(username, enable);
    assert SmbToggleCommand(true, username, enable) == tail;
    SudoWord(tail);
  }

  /** The sudo prefix adds exactly the word "sudo" in front. */
  lemma SudoWord(tail: string)
    ensures Fields("sudo " + tail) == ["sudo"] + Fields(tail)
  {
    assert "sudo " + tail == "sudo" + " " + tail;
    FieldsCons("sudo", tail);
  }

  // ---------------------------------------------------------------- smb.conf

  /** The part of the old smb.conf kept: everything before the first '[', or the default block when that is blank. */
  function GlobalSection(existing: Option<string>): (r: string)
    ensures r == Shares.GlobalBlock || (existing.Some? && r <= existing.value && '[' !in r)
    ensures existing.Some? && IndexOf(existing.value, '[') > 0 &&
            PhpTrim(existing.value[..IndexOf(existing.value, '[')]) !in {"", "0"} ==>
              r == existing.value[..IndexOf(existing.value, '[')]
  {
    var config := if existing.Some? then existing.value else "";
    var end := IndexOf(config, '[');
    var head := if end < 0 then config else config[..end];
    if PhpTrim(head) in {"", "0"} then Shares.GlobalBlock else head
  }

  /** A share's section header line. */
  function SectionHeader(name: Scalar): string {
    "[" + AsString(name) + "]"
  }

  function Setting(row: Row, c: Col, key: Shares.Key): Shares.Entry {
    Shares.Entry(key, AsString(Get(row, c)))
  }

  function Flag(row: Row, c: Col, key: Shares.Key): Shares.Entry {
    Shares.Entry(key, Shares.YesNo(Truthy(Get(row, c))))
  }

  /** A setting written only when its column is not empty(). */
  function Optional(row: Row, c: Col, key: Shares.Key): seq<Shares.Entry> {
    if Truthy(Get(row, c)) then [Setting(row, c, key)] else []
  }

  /** The comment line: the comment, or the display name when the comment is empty. */
  function CommentEntry(row: Row): Shares.Entry {
    Shares.Entry(Shares.Key.Comment, AsString(if Truthy(Get(row, Comment)) then Get(row, Comment) else Get(row, DisplayName)))
  }

  /** The eight settings every section starts with. */
  function FixedEntries(row: Row): seq<Shares.Entry> {
    [CommentEntry(row), Setting(row, Path, Shares.Key.Path),
     Flag(row, Browseable, Shares.Key.Browseable), Flag(row, Readonly, Shares.Key.ReadOnly),
     Flag(row, GuestOk, Shares.Key.GuestOk), Setting(row, CaseSensitive, Shares.Key.CaseSensitive),
     Flag(row, PreserveCase, Shares.Key.PreserveCase),
     Flag(row, ShortPreserveCase, Shares.Key.ShortPreserveCase)]
  }

  /** The user lists, each only when not empty. */
  function ListEntries(row: Row): seq<Shares.Entry> {
    Optional(row, ValidUsers, Shares.Key.ValidUsers) + Optional(row, WriteList, Shares.Key.WriteList)
    + Optional(row, ReadList, Shares.Key.ReadList) + Optional(row, AdminUsers, Shares.Key.AdminUsers)
  }

  function MaskEntries(row: Row): seq<Shares.Entry> {
    [Setting(row, CreateMask, Shares.Key.CreateMask), Setting(row, DirectoryMask, Shares.Key.DirectoryMask)]
  }

  /** The forced owner and group, each only when not empty. */
  function ForceEntries(row: Row): seq<Shares.Entry> {
    Optional(row, ForceUser, Shares.Key.ForceUser) + Optional(row, ForceGroup, Shares.Key.ForceGroup)
  }

  /** The settings of one share's section, in file order. */
  function SectionEntries(row: Row): seq<Shares.Entry> {
    FixedEntries(row) + (ListEntries(row) + (MaskEntries(row) + ForceEntries(row)))
  }

  function SectionLines(row: Row): seq<string> {
    [SectionHeader(Get(row, ShareName))] + Shares.EntryLines(SectionEntries(row)) + [""]
  }

  predicate Active(row: Row) {
    Truthy(Get(row, IsActive))
  }

  /** The lines written for the rows, in row order, skipping every row whose is_active is falsy. */
  function ShareLines(rows: seq<Row>): seq<string>
    decreases |rows|
  {
    if rows == [] then []
    else
      var prev := ShareLines(rows[..|rows| - 1]);
      var row := rows[|rows| - 1];
      if Active(row) then prev + SectionLines(row) else prev
  }

  /** The text updateSambaConfig writes to smb.conf. */
  function SambaConfig(existing: Option<string>, rows: seq<Row>): string {
    GlobalSection(existing) + Lines(ShareLines(rows))
  }

  /** The rows whose is_active is truthy, in order. */
  function ActiveRows(rows: seq<Row>): (r: seq<Row>)
    ensures |r| <= |rows|
    ensures forall i :: 0 <= i < |r| ==> Active(r[i])
    decreases |rows|
  {
    if rows == [] then []
    else
      var prev := ActiveRows(rows[..|rows| - 1]);
      if Active(rows[|rows| - 1]) then prev + [rows[|rows| - 1]] else prev
  }

  /** Inactive shares leave no trace: the file is the one written for the active rows alone. */
  lemma InactiveSkipped(existing: Option<string>, rows: seq<Row>)
    ensures SambaConfig(existing, rows) == SambaConfig(existing, ActiveRows(rows))
  {
    ShareLinesActive(rows);
  }

  lemma {:induction false} ShareLinesActive(rows: seq<Row>)
    ensures ShareLines(rows) == ShareLines(ActiveRows(rows))
    decreases |rows|
  {
    if rows != [] {
      var init := rows[..|rows| - 1];
      var last := rows[|rows| - 1];
      ShareLinesActive(init);
      if Active(last) {
        var a := ActiveRows(init) + [last];
        assert a[..|a| - 1] == ActiveRows(init);
      }
    }
  }

  /** updateSambaConfig's loop, appending each active share's section to the kept global part. */
  method RenderSambaConfig(existing: Option<string>, rows: seq<Row>) returns (config: string)
    ensures config == SambaConfig(existing, rows)
  {
    config := GlobalSection(existing);
    assert rows[..0] == [];
    for i := 0 to |rows|
      invariant config == GlobalSection(existing) + Lines(ShareLines(rows[..i]))
    {
      var row := rows[i];
      assert rows[..i + 1][..i] == rows[..i];
      if !Active(row) {
        assert ShareLines(rows[..i + 1]) == ShareLines(rows[..i]);
        continue;
      }
      var lines := SectionLines(row);
      assert ShareLines(rows[..i + 1]) == ShareLines(rows[..i]) + lines;
      LinesAppend(ShareLines(rows[..i]), lines);
      AppendAssoc(GlobalSection(existing), Lines(ShareLines(rows[..i])), Lines(lines));
      config := config + Lines(lines);
    }
    assert rows[..|rows|] == rows;
  }

  predicate IsListKey(k: Shares.Key) { k.ValidUsers? || k.WriteList? || k.ReadList? || k.AdminUsers? }
  predicate IsMaskKey(k: Shares.Key) { k.CreateMask? || k.DirectoryMask? }
  predicate IsForceKey(k: Shares.Key) { k.ForceUser? || k.ForceGroup? }

  /** No setting of the fixed part is a user list, a mask or a forced owner. */
  lemma FixedKeys(row: Row, key: Shares.Key)
    requires IsListKey(key) || IsMaskKey(key) || IsForceKey(key)
    ensures Shares.Lookup(FixedEntries(row), key) == None
  {
    var fixed := FixedEntries(row);
    assert forall i :: 0 <= i < |fixed| ==> fixed[i].key != key;
    Shares.LookupAbsent(fixed, key);
  }

  /** The column behind each setting written only when non-empty. */
  function OptionalColumn(key: Shares.Key): (c: Option<Col>)
    ensures c.Some? <==> IsListKey(key) || IsForceKey(key)
  {
    match key
    case ValidUsers => Some(ValidUsers)
    case WriteList => Some(WriteList)
    case ReadList => Some(ReadList)
    case AdminUsers => Some(AdminUsers)
    case ForceUser => Some(ForceUser)
    case ForceGroup => Some(ForceGroup)
    case _ => None
  }

  /** What a reader finds for an optional setting: the column's text when it is not empty(), else nothing. */
  function Written(row: Row, key: Shares.Key): Option<string>
    requires OptionalColumn(key).Some?
  {
    var v := Get(row, OptionalColumn(key).value);
    if Truthy(v) then Some(AsString(v)) else None
  }

  /** An optional setting is found iff its column is not empty(). */
  lemma LookupOptional(row: Row, key: Shares.Key, other: Shares.Key)
    requires OptionalColumn(key).Some?
    ensures Shares.Lookup(Optional(row, OptionalColumn(key).value, key), other) ==
              if other == key then Written(row, key) else None
  {
  }

  /** The user lists: each list key finds its column's text when not empty(); no other key is there. */
  lemma ListLookup(row: Row, key: Shares.Key)
    ensures Shares.Lookup(ListEntries(row), key) == if IsListKey(key) then Written(row, key) else None
  {
    var valid := Optional(row, ValidUsers, Shares.Key.ValidUsers);
    var write := Optional(row, WriteList, Shares.Key.WriteList);
    var read := Optional(row, ReadList, Shares.Key.ReadList);
    var admin := Optional(row, AdminUsers, Shares.Key.AdminUsers);
    FirstListsLookup(row, key);
    Shares.LookupAppend(valid + write + read, admin, key);
    Shares.LookupAppend(valid + write, read, key);
    LookupOptional(row, Shares.Key.ReadList, key);
    LookupOptional(row, Shares.Key.AdminUsers, key);
  }

  /** The first two user lists, valid users and the write list. */
  lemma FirstListsLookup(row: Row, key: Shares.Key)
    ensures Shares.Lookup(Optional(row, ValidUsers, Shares.Key.ValidUsers) + Optional(row, WriteList, Shares.Key.WriteList), key)
      == if key.ValidUsers? || key.WriteList? then Written(row, key) else None
  {
    Shares.LookupAppend(Optional(row, ValidUsers, Shares.Key.ValidUsers), Optional(row, WriteList, Shares.Key.WriteList), key);
    LookupOptional(row, Shares.Key.ValidUsers, key);
    LookupOptional(row, Shares.Key.WriteList, key);
  }

  /** The forced owner and group, likewise. */
  lemma ForceLookup(row: Row, key: Shares.Key)
    ensures Shares.Lookup(ForceEntries(row), key) == if IsForceKey(key) then Written(row, key) else None
  {
    Shares.LookupAppend(Optional(row, ForceUser, Shares.Key.ForceUser), Optional(row, ForceGroup, Shares.Key.ForceGroup), key);
    LookupOptional(row, Shares.Key.ForceUser, key);
    LookupOptional(row, Shares.Key.ForceGroup, key);
  }

  /** The first settings of a section: one each, with the comment falling back to the display name. */
  lemma SectionFixedSettings(row: Row)
    ensures Shares.Lookup(SectionEntries(row), Shares.Key.Comment) ==
              Some(AsString(if Truthy(Get(row, Comment)) then Get(row, Comment) else Get(row, DisplayName)))
    ensures Shares.Lookup(SectionEntries(row), Shares.Key.Path) == Some(AsString(Get(row, Path)))
    ensures Shares.Lookup(SectionEntries(row), Shares.Key.ReadOnly) == Some(Shares.YesNo(Truthy(Get(row, Readonly))))
    ensures Shares.Lookup(SectionEntries(row), Shares.Key.GuestOk) == Some(Shares.YesNo(Truthy(Get(row, GuestOk))))
  {
    var fixed := FixedEntries(row);
    var rest := ListEntries(row) + (MaskEntries(row) + ForceEntries(row));
    FixedLookup(row);
    Shares.LookupAppend(fixed, rest, Shares.Key.Comment);
    Shares.LookupAppend(fixed, rest, Shares.Key.Path);
    Shares.LookupAppend(fixed, rest, Shares.Key.ReadOnly);
    Shares.LookupAppend(fixed, rest, Shares.Key.GuestOk);
  }

  /** The settings found among the eight fixed ones. */
  lemma FixedLookup(row: Row)
    ensures Shares.Lookup(FixedEntries(row), Shares.Key.Comment) == Some(CommentEntry(row).value)
    ensures Shares.Lookup(FixedEntries(row), Shares.Key.Path) == Some(AsString(Get(row, Path)))
    ensures Shares.Lookup(FixedEntries(row), Shares.Key.ReadOnly) == Some(Shares.YesNo(Truthy(Get(row, Readonly))))
    ensures Shares.Lookup(FixedEntries(row), Shares.Key.GuestOk) == Some(Shares.YesNo(Truthy(Get(row, GuestOk))))
  {
    var fixed := FixedEntries(row);
    Shares.LookupAt(fixed, 0);
    Shares.LookupAt(fixed, 1);
    Shares.LookupAt(fixed, 3);
    Shares.LookupAt(fixed, 4);
  }

  /** Both masks are always written. */
  lemma SectionMaskSettings(row: Row, key: Shares.Key)
    requires IsMaskKey(key)
    ensures Shares.Lookup(SectionEntries(row), key) ==
              Some(AsString(Get(row, if key.CreateMask? then CreateMask else DirectoryMask)))
  {
    var tail := MaskEntries(row) + ForceEntries(row);
    FixedKeys(row, key);
    Shares.LookupAppend(FixedEntries(row), ListEntries(row) + tail, key);
    ListLookup(row, key);
    Shares.LookupAppend(ListEntries(row), tail, key);
    Shares.LookupAppend(MaskEntries(row), ForceEntries(row), key);
  }

  /** A user list or force setting appears iff its column is not empty(), and then with the column's text. */
  lemma SectionOptionalSetting(row: Row, key: Shares.Key)
    requires OptionalColumn(key).Some?
    ensures Shares.Lookup(SectionEntries(row), key) == Written(row, key)
  {
    var tail := MaskEntries(row) + ForceEntries(row);
    FixedKeys(row, key);
    Shares.LookupAppend(FixedEntries(row), ListEntries(row) + tail, key);
    ListLookup(row, key);
    Shares.LookupAppend(ListEntries(row), tail, key);
    TailOptional(row, key);
  }

  /** Past the user lists, an optional key is found only among the forced owner and group. */
  lemma TailOptional(row: Row, key: Shares.Key)
    requires OptionalColumn(key).Some?
    ensures Shares.Lookup(MaskEntries(row) + ForceEntries(row), key) == if IsForceKey(key) then Written(row, key) else None
  {
    Shares.LookupAppend(MaskEntries(row), ForceEntries(row), key);
    ForceLookup(row, key);
  }

  /** Toggling is_active moves a share into or out of the file. */
  lemma ToggleShowsOrHides(existing: Option<string>, rows: seq<Row>, row: Row)
    ensures var toggled := row[IsActive := Bool(!Active(row))];
            SambaConfig(existing, rows + [toggled]) ==
              if Active(row) then SambaConfig(existing, rows)
              else SambaConfig(existing, rows) + Lines(SectionLines(toggled))
  {
    var toggled := row[IsActive := Bool(!Active(row))];
    assert Get(toggled, IsActive) == Bool(!Active(row));
    var all := rows + [toggled];
    assert all[..|all| - 1] == rows && all[|all| - 1] == toggled;
    if Active(row) {
      assert ShareLines(all) == ShareLines(rows);
    } else {
      assert ShareLines(all) == ShareLines(rows) + SectionLines(toggled);
      LinesAppend(ShareLines(rows), SectionLines(toggled));
      AppendAssoc(GlobalSection(existing), Lines(ShareLines(rows)), Lines(SectionLines(toggled)));
    }
  }

  // ---------------------------------------------------------------- samba

  /**
   * How updateSambaConfig and reloadSamba end after a write: the Samba
   * directory could not be made (the detail is the directory when the
   * panel runs as root, otherwise mkdir's output lines), moving the new
   * configuration into place failed (with the lines exec collected), or
   * both systemctl and service failed to reload smbd.
   */
  datatype SambaOutcome =
    | SambaDone
    | SambaDirFailed(detail: string)
    | SambaMoveFailed(output: seq<string>)
    | SambaReloadFailed

  /** The result a write reports once Samba was updated: its own value, or the exception the Samba step threw. */
  function AfterSamba<T>(samba: SambaOutcome, value: T): (r: Result<T>)
    ensures r.Ok? <==> samba.SambaDone?
    ensures r.Ok? ==> r.value == value
    ensures samba.SambaDirFailed? ==> r == Err("Failed to create Samba directory: " + samba.detail)
    ensures samba.SambaMoveFailed? ==> r == Err("Failed to update Samba configuration: " + Join(samba.output, "\n"))
    ensures samba.SambaReloadFailed? ==> r == Err("Failed to reload Samba service")
  {
    match samba
    case SambaDone => Ok(value)
    case SambaDirFailed(detail) => Err("Failed to create Samba directory: " + detail)
    case SambaMoveFailed(output) => Err("Failed to update Samba configuration: " + Join(output, "\n"))
    case SambaReloadFailed => Err("Failed to reload Samba service")
  }

  // ---------------------------------------------------------------- permission rows

  /**
   * The rows getSharePermissions returns for a share, as (username,
   * level): the user ids are visited in the query's order, and those with
   * a permission row on the share and an account contribute one row.
   */
  function ReadBack(permissions: map<PermKey, string>, users: map<int, Shares.ShareUser>, shareId: int, order: seq<int>): (r: seq<Shares.Grant>)
    ensures |r| <= |order|
  {
    if order == [] then []
    else
      var u := order[0];
      var rest := ReadBack(permissions, users, shareId, order[1..]);
      if u in users && PermKey(shareId, u) in permissions
      then [Shares.Grant(users[u].username, permissions[PermKey(shareId, u)])] + rest
      else rest
  }

  /**
   * The query's order of user ids: each at most once, and every user with
   * one of the given permission rows on the share among them.
   */
  predicate RowOrder(order: seq<int>, users: map<int, Shares.ShareUser>, shareId: int, keys: set<PermKey>) {
    (forall i, j :: 0 <= i < j < |order| ==> order[i] != order[j])
    && (forall u :: u in users && PermKey(shareId, u) in keys ==> u in order)
  }

  /** Every row read back is a permission row of the share, with its user's name and level. */
  lemma {:induction false} ReadBackOnlyRows(permissions: map<PermKey, string>, users: map<int, Shares.ShareUser>, shareId: int, order: seq<int>, g: Shares.Grant)
    requires g in ReadBack(permissions, users, shareId, order)
    ensures exists u :: u in users && PermKey(shareId, u) in permissions && g == Shares.Grant(users[u].username, permissions[PermKey(shareId, u)])
  {
    var u := order[0];
    if u in users && PermKey(shareId, u) in permissions && g == Shares.Grant(users[u].username, permissions[PermKey(shareId, u)]) {
    } else {
      ReadBackOnlyRows(permissions, users, shareId, order[1..], g);
    }
  }

  /** Every permission row of the share with an account is read back. */
  lemma {:induction false} ReadBackHasRow(permissions: map<PermKey, string>, users: map<int, Shares.ShareUser>, shareId: int, order: seq<int>, u: int)
    requires u in users && PermKey(shareId, u) in permissions && u in order
    ensures Shares.Grant(users[u].username, permissions[PermKey(shareId, u)]) in ReadBack(permissions, users, shareId, order)
  {
    if order[0] != u {
      assert u in order[1..] by {
        var k :| 0 <= k < |order| && order[k] == u;
        assert order[1..][k - 1] == u;
      }
      ReadBackHasRow(permissions, users, shareId, order[1..], u);
    }
  }

  /** A grant's user is valid, and on the lists its level names. */
  lemma {:induction false} ClassifyPhpMembers(grants: seq<Shares.Grant>, g: Shares.Grant)
    requires g in grants
    ensures g.username in ClassifyPhp(grants).valid
    ensures g.level == "admin" ==> g.username in ClassifyPhp(grants).admin && g.username in ClassifyPhp(grants).write
    ensures g.level == "write" ==> g.username in ClassifyPhp(grants).write
    ensures g.level == "read" ==> g.username in ClassifyPhp(grants).read
    decreases |grants|
  {
    var init := grants[..|grants| - 1];
    if grants[|grants| - 1] != g {
      assert g in init by {
        var k :| 0 <= k < |grants| && grants[k] == g;
        assert init[k] == g;
      }
      ClassifyPhpMembers(init, g);
    }
  }

  /**
   * After updateSharePermissions, every user holding a permission row on
   * the share is among its valid users and on the list of its level.
   */
  lemma PermissionListed(permissions: map<PermKey, string>, users: map<int, Shares.ShareUser>, shareId: int, order: seq<int>, u: int)
    requires RowOrder(order, users, shareId, permissions.Keys)
    requires u in users && PermKey(shareId, u) in permissions
    ensures var lists := ClassifyPhp(ReadBack(permissions, users, shareId, order));
            var name := users[u].username;
            var level := permissions[PermKey(shareId, u)];
            name in lists.valid
            && (level == "admin" ==> name in lists.admin && name in lists.write)
            && (level == "write" ==> name in lists.write)
            && (level == "read" ==> name in lists.read)
  {
    ReadBackHasRow(permissions, users, shareId, order, u);
    ClassifyPhpMembers(ReadBack(permissions, users, shareId, order), Shares.Grant(users[u].username, permissions[PermKey(shareId, u)]));
  }

  // ---------------------------------------------------------------- the tables

  class ShareStore {
    var shares: map<int, Row>
    var users: map<int, Shares.ShareUser>
    var permissions: map<PermKey, string>
    var nextShareId: int

    ghost predicate Valid()
      reads this
    {
      forall id :: id in shares ==> id < nextShareId
    }

    constructor ()
      ensures Valid() && shares == map[] && users == map[] && permissions == map[]
    {
      shares := map[];
      users := map[];
      permissions := map[];
      nextShareId := 1;
    }

    /**
     * create: the name must be one or more letters, digits, '-' and '_'
     * and not already taken; the share directory must exist or be made;
     * then the row is inserted under a fresh id and Samba is updated, whose
     * failure is reported after the row was stored. The name is tested with
     * the pattern as PCRE runs it when `asWritten` holds, otherwise with the
     * intended test.
     */
    method Create(data: Request, createdBy: Option<int>, dirReady: bool, samba: SambaOutcome, asWritten: bool) returns (r: Result<int>)
      requires Valid()
      modifies this`shares, this`nextShareId
      ensures Valid()
      ensures var name := AsString(Arg(data, ShareName));
              if !(if asWritten then NamePatternAsWritten(name) else ValidShareName(name)) then
                r == Err("Share name can only contain letters, numbers, hyphens, and underscores") && shares == old(shares)
              else if exists id :: id in old(shares) && Named(old(shares)[id], name) then
                r == Err("Share with this name already exists") && shares == old(shares)
              else if !dirReady then
                r == Err("Failed to create share directory") && shares == old(shares)
              else
                old(nextShareId) !in old(shares)
                && shares == old(shares)[old(nextShareId) := NewShareRow(data, createdBy)]
                && r == AfterSamba(samba, old(nextShareId))
    {
      var name := AsString(Arg(data, ShareName));
      if !(if asWritten then NamePatternAsWritten(name) else ValidShareName(name)) {
        return Err("Share name can only contain letters, numbers, hyphens, and underscores");
      }
      if exists id :: id in shares && Named(shares[id], name) {
        return Err("Share with this name already exists");
      }
      if !dirReady {
        return Err("Failed to create share directory");
      }
      var id := nextShareId;
      shares := shares[id := NewShareRow(data, createdBy)];
      nextShareId := nextShareId + 1;
      return AfterSamba(samba, id);
    }

    /**
     * update: a missing share is an error; otherwise the set allow-listed
     * columns are written (boolean ones as 0 or 1) and Samba is updated; a
     * request setting none of them succeeds without a write or a Samba update.
     */
    method Update(id: int, data: Request, samba: SambaOutcome) returns (r: Result<bool>, updates: seq<Assignment>)
      modifies this`shares
      ensures id !in old(shares) ==> r == Err("Share not found") && updates == [] && shares == old(shares)
      ensures id in old(shares) ==>
                updates == ShareAssignments(data, AllowedFields)
                && shares == old(shares)[id := old(shares)[id] + Changes(data)]
                && r == if updates == [] then Ok(true) else AfterSamba(samba, true)
    {
      if id !in shares {
        return Err("Share not found"), [];
      }
      updates := CollectAssignments(data);
      NoAssignmentNoChange(data);
      if updates == [] {
        assert old(shares)[id] + Changes(data) == old(shares)[id];
        return Ok(true), updates;
      }
      shares := shares[id := shares[id] + Changes(data)];
      r := AfterSamba(samba, true);
    }

    /** toggleActive: stores the negation of the share's is_active, updates Samba and returns the new flag. */
    method ToggleActive(id: int, samba: SambaOutcome) returns (r: Result<bool>)
      modifies this`shares
      ensures id !in old(shares) ==> r == Err("Share not found") && shares == old(shares)
      ensures id in old(shares) ==>
                var now := !Active(old(shares)[id]);
                r == AfterSamba(samba, now) && shares == old(shares)[id := old(shares)[id][IsActive := Bool(now)]]
    {
      if id !in shares {
        return Err("Share not found");
      }
      var newStatus := !Active(shares[id]);
      shares := shares[id := shares[id][IsActive := Bool(newStatus)]];
      return AfterSamba(samba, newStatus);
    }

    /**
     * toggleUserActive: stores the negated is_active, then runs smbpasswd
     * to match; a failing smbpasswd is an error after the row was written.
     */
    method ToggleUserActive(id: int, isRoot: bool, smbOk: bool) returns (r: Result<bool>, command: Option<string>)
      modifies this`users
      ensures id !in old(users) ==> r == Err("User not found") && command == None && users == old(users)
      ensures id in old(users) ==>
                var now := !Truthy(old(users)[id].isActive);
                users == old(users)[id := old(users)[id].(isActive := Bool(now))]
                && command == Some(SmbToggleCommand(isRoot, old(users)[id].username, now))
                && r == if smbOk then Ok(now) else Err("Failed to toggle Samba user status")
    {
      if id !in users {
        return Err("User not found"), None;
      }
      var newStatus := !Truthy(users[id].isActive);
      var username := users[id].username;
      users := users[id := users[id].(isActive := Bool(newStatus))];
      command := Some(SmbToggleCommand(isRoot, username, newStatus));
      if !smbOk {
        return Err("Failed to toggle Samba user status"), command;
      }
      r := Ok(newStatus);
    }

    /**
     * updateSharePermissions: the share's permission rows are read back in
     * the query's order, the four lists rebuilt from them and stored
     * comma-joined, and Samba is updated.
     */
    method UpdateSharePermissions(shareId: int, order: seq<int>, samba: SambaOutcome) returns (r: Result<bool>)
      requires RowOrder(order, users, shareId, permissions.Keys)
      modifies this`shares
      ensures r == AfterSamba(samba, true)
      ensures var lists := ClassifyPhp(ReadBack(permissions, users, shareId, order));
              shares == if shareId in old(shares) then old(shares)[shareId := WithLists(old(shares)[shareId], lists)] else old(shares)
    {
      var lists := CollectPermissions(ReadBack(permissions, users, shareId, order));
      if shareId in shares {
        shares := shares[shareId := WithLists(shares[shareId], lists)];
      }
      r := AfterSamba(samba, true);
    }

    /**
     * setPermission: only read, write and admin are accepted; the level is
     * inserted or overwritten for the share and user, and the share's user
     * lists are rebuilt from the permission rows read back.
     */
    method SetPermission(shareId: int, userId: int, level: string, order: seq<int>, samba: SambaOutcome) returns (r: Result<bool>)
      requires level in PermissionLevels ==> RowOrder(order, users, shareId, permissions.Keys + {PermKey(shareId, userId)})
      modifies this`permissions, this`shares
      ensures level !in PermissionLevels ==>
                r == Err("Invalid permission level") && permissions == old(permissions) && shares == old(shares)
      ensures level in PermissionLevels ==>
                permissions == old(permissions)[PermKey(shareId, userId) := level]
                && r == AfterSamba(samba, true)
                && var lists := ClassifyPhp(ReadBack(permissions, users, shareId, order));
                   shares == if shareId in old(shares) then old(shares)[shareId := WithLists(old(shares)[shareId], lists)] else old(shares)
    {
      if level !in PermissionLevels {
        return Err("Invalid permission level");
      }
      permissions := permissions[PermKey(shareId, userId) := level];
      assert permissions.Keys == old(permissions).Keys + {PermKey(shareId, userId)};
      r := UpdateSharePermissions(shareId, order, samba);
    }
  }

  /** After setPermission, the user is a valid user of the share and on the list of the level granted. */
  lemma SetPermissionListsUser(permissions: map<PermKey, string>, users: map<int, Shares.ShareUser>, shareId: int, userId: int, level: string, order: seq<int>)
    requires level in PermissionLevels && userId in users
    requires RowOrder(order, users, shareId, permissions.Keys + {PermKey(shareId, userId)})
    ensures var lists := ClassifyPhp(ReadBack(permissions[PermKey(shareId, userId) := level], users, shareId, order));
            var name := users[userId].username;
            name in lists.valid
            && (level == "admin" ==> name in lists.admin && name in lists.write)
            && (level == "write" ==> name in lists.write)
            && (level == "read" ==> name in lists.read)
  {
    var after := permissions[PermKey(shareId, userId) := level];
    assert after.Keys == permissions.Keys + {PermKey(shareId, userId)};
    PermissionListed(after, users, shareId, order, userId);
  }
}
