/**
 * Panel user accounts: the PHP `User` class (src/User.php) and the Go
 * user handlers (go-backend/users.go), both over the `users` table.
 *
 * The table is a map from id to row, a row a map from column name to
 * value. Whether a statement throws (a duplicate key, a lost connection)
 * is the parameter `fails`; password hashing is the function `hash`.
 */
module Users {
  import opened Text

  /** A row of the users table: column name to value. */
  type Row = map<string, Scalar>

  /** A statement sent to the database: its SQL text and bound values. */
  datatype Query = Query(sql: string, params: seq<Scalar>)

  /** One key => value of the array passed to update(). */
  datatype Pair = Pair(key: string, value: Scalar)

  /** The columns update() may set. */
  const Updatable: set<string> := {"username", "email", "full_name", "role", "is_active"}

  /** The pairs update() keeps, in order: those whose key is an updatable column. */
  function Kept(data: seq<Pair>): (kept: seq<Pair>)
    ensures |kept| <= |data|
    ensures forall i :: 0 <= i < |kept| ==> kept[i].key in Updatable && kept[i] in data
    decreases |data|
  {
    if data == [] then []
    else
      var init := Kept(data[..|data| - 1]);
      var last := data[|data| - 1];
      init + (if last.key in Updatable then [last] else [])
  }

  /** A pair with an updatable key is kept; a pair with any other key is dropped. */
  lemma {:induction false} KeptExactly(data: seq<Pair>, p: Pair)
    ensures p in Kept(data) <==> p in data && p.key in Updatable
    decreases |data|
  {
    if data != [] {
      KeptExactly(data[..|data| - 1], p);
      assert data == data[..|data| - 1] + [data[|data| - 1]];
    }
  }

  function Clauses(kept: seq<Pair>): (cs: seq<string>)
    ensures |cs| == |kept|
    ensures forall i :: 0 <= i < |kept| ==> cs[i] == kept[i].key + " = ?"
    decreases |kept|
  {
    if kept == [] then [] else Clauses(kept[..|kept| - 1]) + [kept[|kept| - 1].key + " = ?"]
  }

  function Values(kept: seq<Pair>): (vs: seq<Scalar>)
    ensures |vs| == |kept|
    ensures forall i :: 0 <= i < |kept| ==> vs[i] == kept[i].value
    decreases |kept|
  {
    if kept == [] then [] else Values(kept[..|kept| - 1]) + [kept[|kept| - 1].value]
  }

  /** The UPDATE statement for the kept pairs: one `key = ?` per pair and the id last. */
  function UpdateQuery(id: int, kept: seq<Pair>): (q: Query)
    ensures |q.params| == |kept| + 1 && q.params[|kept|] == Int(id)
    ensures HasPrefix(q.sql, "UPDATE users SET ")
  {
    Query("UPDATE users SET " + Join(Clauses(kept), ", ") + " WHERE id = ?", Values(kept) + [Int(id)])
  }

  /** The row after the UPDATE: each kept pair's value in its column, the last one winning. */
  function Assign(row: Row, kept: seq<Pair>): (r: Row)
    decreases |kept|
  {
    if kept == [] then row else Assign(row, kept[..|kept| - 1])[kept[|kept| - 1].key := kept[|kept| - 1].value]
  }

  /** An update never touches a column outside the allow-list, in particular the password. */
  lemma {:induction false} AssignKeepsOthers(row: Row, data: seq<Pair>, column: string)
    requires column !in Updatable
    ensures var r := Assign(row, Kept(data)); (column in r <==> column in row) && (column in row ==> r[column] == row[column])
  {
    var kept := Kept(data);
    AssignOutside(row, kept, column);
  }

  lemma {:induction false} AssignOutside(row: Row, kept: seq<Pair>, column: string)
    requires forall i :: 0 <= i < |kept| ==> kept[i].key != column
    ensures var r := Assign(row, kept); (column in r <==> column in row) && (column in row ==> r[column] == row[column])
    decreases |kept|
  {
    if kept != [] {
      AssignOutside(row, kept[..|kept| - 1], column);
    }
  }

  /** Each kept column ends with the value of its last pair. */
  lemma {:induction false} AssignLastWins(row: Row, kept: seq<Pair>, i: nat)
    requires i < |kept| && forall j :: i < j < |kept| ==> kept[j].key != kept[i].key
    ensures kept[i].key in Assign(row, kept) && Assign(row, kept)[kept[i].key] == kept[i].value
    decreases |kept|
  {
    if i < |kept| - 1 {
      AssignLastWins(row, kept[..|kept| - 1], i);
    }
  }

  /** The row create() inserts. */
  function NewRow(username: string, email: string, passwordHash: string, fullName: string, role: string): Row {
    map["username" := Str(username), "email" := Str(email), "password" := Str(passwordHash),
        "full_name" := Str(fullName), "role" := Str(role)]
  }

  /** The id of the built-in administrator, which cannot be deleted or (in the Go API) edited. */
  const AdminId := 1

  /** The PHP User class. */
  class User {
    var rows: map<int, Row>
    /** The id the next insert gets. */
    var nextId: int
    /** The statements issued, in order. */
    var queries: seq<Query>

    constructor (rows: map<int, Row>, nextId: int)
      requires forall id :: id in rows ==> id < nextId
      ensures this.rows == rows && this.nextId == nextId && queries == []
      ensures Valid()
    {
      this.rows, this.nextId, queries := rows, nextId, [];
    }

    /** Every stored id is below the next id. */
    predicate Valid()
      reads this
    {
      forall id :: id in rows ==> id < nextId
    }

    /** create: insert the row with the hashed password; the new id, or nothing when the insert throws. */
    method Create(username: string, email: string, password: string, fullName: string, role: string,
                  hash: string -> string, fails: bool) returns (id: Option<int>)
      requires Valid()
      modifies this
      ensures Valid()
      ensures queries == old(queries) + [Query("INSERT INTO users (username, email, password, full_name, role) VALUES (?, ?, ?, ?, ?)",
        [Str(username), Str(email), Str(hash(password)), Str(fullName), Str(role)])]
      ensures fails ==> id.None? && rows == old(rows) && nextId == old(nextId)
      ensures !fails ==> (id == Some(old(nextId)) && old(nextId) !in old(rows)
        && rows == old(rows)[old(nextId) := NewRow(username, email, hash(password), fullName, role)] && nextId == old(nextId) + 1)
    {
      var hashed := hash(password);
      queries := queries + [Query("INSERT INTO users (username, email, password, full_name, role) VALUES (?, ?, ?, ?, ?)",
        [Str(username), Str(email), Str(hashed), Str(fullName), Str(role)])];
      if fails {
        return None;
      }
      id := Some(nextId);
      rows := rows[nextId := NewRow(username, email, hashed, fullName, role)];
      nextId := nextId + 1;
    }

    /**
     * update: SET only the allow-listed keys; with none of them, false and
     * no statement; a statement that throws gives false and changes nothing.
     */
    method Update(id: int, data: seq<Pair>, fails: bool) returns (ok: bool)
      requires Valid()
      modifies this`rows, this`queries
      ensures Valid()
      ensures Kept(data) == [] ==> !ok && rows == old(rows) && queries == old(queries)
      ensures Kept(data) != [] ==> queries == old(queries) + [UpdateQuery(id, Kept(data))]
      ensures ok <==> Kept(data) != [] && !fails
      ensures ok && id in old(rows) ==> rows == old(rows)[id := Assign(old(rows)[id], Kept(data))]
      ensures !ok || id !in old(rows) ==> rows == old(rows)
    {
      var fields: seq<string> := [];
      var values: seq<Scalar> := [];
      var kept: seq<Pair> := [];
      for i := 0 to |data|
        invariant kept == Kept(data[..i])
        invariant fields == Clauses(kept) && values == Values(kept)
      {
        assert data[..i + 1][..i] == data[..i];
        if data[i].key in Updatable {
          fields := fields + [data[i].key + " = ?"];
          values := values + [data[i].value];
          kept := kept + [data[i]];
        }
      }
      assert data[..|data|] == data;
      if fields == [] {
        return false;
      }
      values := values + [Int(id)];
      queries := queries + [Query("UPDATE users SET " + Join(fields, ", ") + " WHERE id = ?", values)];
      if fails {
        return false;
      }
      if id in rows {
        rows := rows[id := Assign(rows[id], kept)];
      }
      return true;
    }

    /** updatePassword: store the hash of the new password; false when the statement throws. */
    method UpdatePassword(id: int, newPassword: string, hash: string -> string, fails: bool) returns (ok: bool)
      requires Valid()
      modifies this`rows, this`queries
      ensures Valid()
      ensures queries == old(queries) + [Query("UPDATE users SET password = ? WHERE id = ?", [Str(hash(newPassword)), Int(id)])]
      ensures ok == !fails
      ensures ok && id in old(rows) ==> rows == old(rows)[id := old(rows)[id]["password" := Str(hash(newPassword))]]
      ensures !ok || id !in old(rows) ==> rows == old(rows)
    {
      var hashed := hash(newPassword);
      queries := queries + [Query("UPDATE users SET password = ? WHERE id = ?", [Str(hashed), Int(id)])];
      if fails {
        return false;
      }
      if id in rows {
        rows := rows[id := rows[id]["password" := Str(hashed)]];
      }
      return true;
    }

    /** delete: never the administrator (no statement at all); otherwise the row goes unless the statement throws. */
    method Delete(id: int, fails: bool) returns (ok: bool)
      requires Valid()
      modifies this`rows, this`queries
      ensures Valid()
      ensures id == AdminId ==> !ok && rows == old(rows) && queries == old(queries)
      ensures id != AdminId ==> queries == old(queries) + [Query("DELETE FROM users WHERE id = ?", [Int(id)])]
      ensures ok <==> id != AdminId && !fails
      ensures rows == if ok then old(rows) - {id} else old(rows)
      ensures AdminId in old(rows) ==> AdminId in rows
    {
      if id == AdminId {
        return false;
      }
      queries := queries + [Query("DELETE FROM users WHERE id = ?", [Int(id)])];
      if fails {
        return false;
      }
      rows := rows - {id};
      return true;
    }
  }

  // ------------------------------------------------------------------ the Go handlers

  /** A scanned row of the user list: absent when Scan failed. */
  type Scanned = Option<Row>

  /** The rows that scanned, in order. */
  function ScannedRows(rows: seq<Scanned>): (users: seq<Row>)
    ensures |users| <= |rows|
    decreases |rows|
  {
    if rows == [] then []
    else ScannedRows(rows[..|rows| - 1]) + (if rows[|rows| - 1].Some? then [rows[|rows| - 1].value] else [])
  }

  /** Every row that scanned is listed, and only those. */
  lemma {:induction false} ScannedRowsExactly(rows: seq<Scanned>, r: Row)
    ensures r in ScannedRows(rows) <==> Some(r) in rows
    decreases |rows|
  {
    if rows != [] {
      ScannedRowsExactly(rows[..|rows| - 1], r);
      assert rows == rows[..|rows| - 1] + [rows[|rows| - 1]];
    }
  }

  /**
   * ListUsersHandler's loop: skip rows whose Scan fails. The slice starts
   * nil, so with no row it is encoded as null rather than [].
   */
  method ListUsers(rows: seq<Scanned>) returns (users: Option<seq<Row>>)
    ensures users.None? <==> ScannedRows(rows) == []
    ensures users.Some? ==> users.value == ScannedRows(rows)
  {
    users := None;
    for i := 0 to |rows|
      invariant users.None? <==> ScannedRows(rows[..i]) == []
      invariant users.Some? ==> users.value == ScannedRows(rows[..i])
    {
      assert rows[..i + 1][..i] == rows[..i];
      if rows[i].None? {
        continue;
      }
      users := Some(if users.None? then [rows[i].value] else users.value + [rows[i].value]);
    }
    assert rows[..|rows|] == rows;
  }

  /** CreateUserHandler's body; an empty role means "user". */
  datatype NewUser = NewUser(username: string, email: string, password: string, fullName: string, role: string)

  function RoleOrDefault(role: string): (r: string)
    ensures r != ""
    ensures role != "" ==> r == role
  {
    if role == "" then "user" else role
  }

  /** UpdateUserHandler's body. */
  datatype Changes = Changes(username: string, email: string, fullName: string, role: string, isActive: bool)

  /** The row after UpdateUserHandler: all five columns from the body. */
  function Changed(row: Row, c: Changes): Row {
    row["username" := Str(c.username)]["email" := Str(c.email)]["full_name" := Str(c.fullName)]
       ["role" := Str(c.role)]["is_active" := Bool(c.isActive)]
  }

  /** The Go API's share of the request: whether the body decodes, the database opens and the statement succeeds. */
  datatype Io = Io(decoded: bool, connected: bool, execOk: bool)

  /** May the session change the password of `target`: an administrator, or the user themself. */
  predicate MayChangePassword(sessionRole: string, sessionUser: int, target: int) {
    sessionRole == "admin" || sessionUser == target
  }

  class UserHandlers {
    var rows: map<int, Row>
    var nextId: int

    constructor (rows: map<int, Row>, nextId: int)
      ensures this.rows == rows && this.nextId == nextId
    {
      this.rows, this.nextId := rows, nextId;
    }

    /** CreateUserHandler */
    method Create(body: NewUser, hashOk: bool, hash: string -> string, io: Io) returns (reply: Reply, id: Option<int>)
      modifies this
      ensures !io.decoded ==> reply == Reply(400, "Invalid request")
      ensures io.decoded && !hashOk ==> reply == Reply(500, "Failed to hash password")
      ensures io.decoded && hashOk && !io.connected ==> reply == Reply(500, "Database error")
      ensures io.decoded && hashOk && io.connected && !io.execOk ==> reply == Reply(400, "Failed to create user")
      ensures reply == OK <==> io.decoded && hashOk && io.connected && io.execOk
      ensures reply == OK ==> (id == Some(old(nextId)) && nextId == old(nextId) + 1
        && rows == old(rows)[old(nextId) := NewRow(body.username, body.email, hash(body.password), body.fullName, RoleOrDefault(body.role))])
      ensures reply != OK ==> id.None? && rows == old(rows) && nextId == old(nextId)
    {
      id := None;
      if !io.decoded {
        return Reply(400, "Invalid request"), id;
      }
      var role := if body.role == "" then "user" else body.role;
      if !hashOk {
        return Reply(500, "Failed to hash password"), id;
      }
      if !io.connected {
        return Reply(500, "Database error"), id;
      }
      if !io.execOk {
        return Reply(400, "Failed to create user"), id;
      }
      rows := rows[nextId := NewRow(body.username, body.email, hash(body.password), body.fullName, role)];
      id := Some(nextId);
      nextId := nextId + 1;
      reply := OK;
    }

    /** GetUserHandler: the row of the id in the path (0 when it is not a number), or 404. */
    method Get(idText: string, connected: bool) returns (reply: Reply, row: Option<Row>)
      ensures !connected ==> reply == Reply(500, "Database error") && row.None?
      ensures connected && ParseOrZero(idText) !in rows ==> reply == Reply(404, "User not found") && row.None?
      ensures connected && ParseOrZero(idText) in rows ==> reply == OK && row == Some(rows[ParseOrZero(idText)])
    {
      var id := ParseOrZero(idText);
      if !connected {
        return Reply(500, "Database error"), None;
      }
      if id !in rows {
        return Reply(404, "User not found"), None;
      }
      return OK, Some(rows[id]);
    }

    /** UpdateUserHandler: user 1 is refused before the body is read; then all five columns are set. */
    method Update(idText: string, body: Changes, io: Io) returns (reply: Reply)
      modifies this`rows
      ensures ParseOrZero(idText) == AdminId ==> reply == Reply(403, "Cannot modify admin user") && rows == old(rows)
      ensures ParseOrZero(idText) != AdminId && !io.decoded ==> reply == Reply(400, "Invalid request")
      ensures ParseOrZero(idText) != AdminId && io.decoded && !io.connected ==> reply == Reply(500, "Database error")
      ensures ParseOrZero(idText) != AdminId && io.decoded && io.connected && !io.execOk ==> reply == Reply(400, "Failed to update user")
      ensures reply == OK <==> ParseOrZero(idText) != AdminId && io.decoded && io.connected && io.execOk
      ensures reply == OK && ParseOrZero(idText) in old(rows) ==>
        rows == old(rows)[ParseOrZero(idText) := Changed(old(rows)[ParseOrZero(idText)], body)]
      ensures reply != OK || ParseOrZero(idText) !in old(rows) ==> rows == old(rows)
    {
      var id := ParseOrZero(idText);
      if id == AdminId {
        return Reply(403, "Cannot modify admin user");
      }
      if !io.decoded {
        return Reply(400, "Invalid request");
      }
      if !io.connected {
        return Reply(500, "Database error");
      }
      if !io.execOk {
        return Reply(400, "Failed to update user");
      }
      if id in rows {
        rows := rows[id := Changed(rows[id], body)];
      }
      return OK;
    }

    /** DeleteUserHandler: user 1 is refused; otherwise the row goes. */
    method Delete(idText: string, io: Io) returns (reply: Reply)
      modifies this`rows
      ensures ParseOrZero(idText) == AdminId ==> reply == Reply(403, "Cannot delete admin user")
      ensures ParseOrZero(idText) != AdminId && !io.connected ==> reply == Reply(500, "Database error")
      ensures ParseOrZero(idText) != AdminId && io.connected && !io.execOk ==> reply == Reply(400, "Failed to delete user")
      ensures reply == OK <==> ParseOrZero(idText) != AdminId && io.connected && io.execOk
      ensures rows == if reply == OK then old(rows) - {ParseOrZero(idText)} else old(rows)
      ensures AdminId in old(rows) ==> AdminId in rows
    {
      var id := ParseOrZero(idText);
      if id == AdminId {
        return Reply(403, "Cannot delete admin user");
      }
      if !io.connected {
        return Reply(500, "Database error");
      }
      if !io.execOk {
        return Reply(400, "Failed to delete user");
      }
      rows := rows - {id};
      return OK;
    }

    /**
     * UpdatePasswordHandler: after the body decodes, only an administrator
     * or the user themself may go on; then the hash is stored. A session
     * without a user id or role reads as 0 and "".
     */
    method UpdatePassword(idText: string, password: string, sessionUser: Option<int>, sessionRole: Option<string>,
                          hashOk: bool, hash: string -> string, io: Io) returns (reply: Reply)
      modifies this`rows
      ensures var uid := if sessionUser.Some? then sessionUser.value else 0;
        var role := if sessionRole.Some? then sessionRole.value else "";
        (!io.decoded ==> reply == Reply(400, "Invalid request"))
        && (io.decoded && !MayChangePassword(role, uid, ParseOrZero(idText)) ==> reply == Reply(403, "Forbidden"))
        && (reply == OK <==> io.decoded && MayChangePassword(role, uid, ParseOrZero(idText)) && hashOk && io.connected && io.execOk)
      ensures reply == OK && ParseOrZero(idText) in old(rows) ==>
        rows == old(rows)[ParseOrZero(idText) := old(rows)[ParseOrZero(idText)]["password" := Str(hash(password))]]
      ensures reply != OK || ParseOrZero(idText) !in old(rows) ==> rows == old(rows)
    {
      var id := ParseOrZero(idText);
      if !io.decoded {
        return Reply(400, "Invalid request");
      }
      var uid := if sessionUser.Some? then sessionUser.value else 0;
      var role := if sessionRole.Some? then sessionRole.value else "";
      if role != "admin" && uid != id {
        return Reply(403, "Forbidden");
      }
      if !hashOk {
        return Reply(500, "Failed to hash password");
      }
      if !io.connected {
        return Reply(500, "Database error");
      }
      if !io.execOk {
        return Reply(400, "Failed to update password");
      }
      if id in rows {
        rows := rows[id := rows[id]["password" := Str(hash(password))]];
      }
      return OK;
    }

    /** UpdateProfileHandler: the logged-in user's own email and full name. */
    method UpdateProfile(current: Option<int>, email: string, fullName: string, io: Io) returns (reply: Reply)
      modifies this`rows
      ensures current.None? ==> reply == Reply(401, "Unauthorized") && rows == old(rows)
      ensures reply == OK <==> current.Some? && io.decoded && io.connected && io.execOk
      ensures reply == OK && current.value in old(rows) ==>
        rows == old(rows)[current.value := old(rows)[current.value]["email" := Str(email)]["full_name" := Str(fullName)]]
      ensures reply != OK || current.value !in old(rows) ==> rows == old(rows)
    {
      if current.None? {
        return Reply(401, "Unauthorized");
      }
      if !io.decoded {
        return Reply(400, "Invalid request");
      }
      if !io.connected {
        return Reply(500, "Database error");
      }
      if !io.execOk {
        return Reply(400, "Failed to update profile");
      }
      var id := current.value;
      if id in rows {
        rows := rows[id := rows[id]["email" := Str(email)]["full_name" := Str(fullName)]];
      }
      return OK;
    }
  }

  /** No one but an administrator changes another user's password. */
  lemma PasswordChangeAuthorised(role: string, uid: int, target: int)
    requires role != "admin" && uid != target
    ensures !MayChangePassword(role, uid, target)
  {
  }
}
